/**
 The domain of a run, read from the run's name: the part before the first
 `-`, which must name one of the three benchmark domains.
 */
module Domains {
  import opened Wrappers

  datatype Domain = Airline | Retail | Telecom

  function DomainName(d: Domain): string {
    match d
    case Airline => "airline"
    case Retail => "retail"
    case Telecom => "telecom"
  }

  /** The name of the run that `report` and `eval` use by default. */
  const DefaultRunName: string := "airline-gpt4.1-mini.json"

  /** `name.split("-")[0]`: the longest prefix without a `-`. */
  function FirstField(name: string): (p: string)
    ensures p <= name
    ensures '-' !in p
    ensures |p| < |name| ==> name[|p|] == '-'
  {
    if name == [] || name[0] == '-' then ""
    else [name[0]] + FirstField(name[1..])
  }

  /** The assertion that the domain is one of the three known ones. */
  function ParseDomain(name: string): (r: Result<Domain, string>)
    ensures r.Ok? ==> DomainName(r.value) == FirstField(name)
    ensures r.Err? ==> r.error == FirstField(name) && r.error !in {"airline", "retail", "telecom"}
  {
    var d := FirstField(name);
    if d == "airline" then Ok(Airline)
    else if d == "retail" then Ok(Retail)
    else if d == "telecom" then Ok(Telecom)
    else Err(d)
  }

  /** A prefix without `-` is exactly what `FirstField` recovers, whatever
      follows the first `-`. */
  lemma {:induction false} FirstFieldOfJoin(p: string, rest: string)
    requires '-' !in p
    ensures FirstField(p + "-" + rest) == p
  {
    if p != [] {
      assert (p + "-" + rest)[1..] == p[1..] + "-" + rest;
      FirstFieldOfJoin(p[1..], rest);
    }
  }

  /** Naming a run `<domain>-<anything>` selects that domain. */
  lemma DomainRoundTrip(d: Domain, rest: string)
    ensures ParseDomain(DomainName(d) + "-" + rest) == Ok(d)
  {
    FirstFieldOfJoin(DomainName(d), rest);
  }

  /** A name with no `-` is taken whole as the domain. */
  lemma FirstFieldWithoutDash(name: string)
    requires '-' !in name
    ensures FirstField(name) == name
  {
  }

  /** The default run belongs to the airline domain. */
  lemma DefaultRunIsAirline()
    ensures ParseDomain(DefaultRunName) == Ok(Airline)
  {
    assert DefaultRunName == DomainName(Airline) + "-" + "gpt4.1-mini.json";
    DomainRoundTrip(Airline, "gpt4.1-mini.json");
  }
}
