/**
 `dataset_stats`: for each domain's tasks, two counters over the three kinds
 of evaluation criteria: the summed length of each kind's list and the
 number of tasks whose list of that kind is non-empty. A missing list (`None`)
 counts as empty. Only these integer counters are modelled; the averages
 divide them by the number of tasks.
 */
module DatasetStats {
  import opened Wrappers
  import opened Data
  import opened Counters
  import opened Domains

  datatype Kind = Actions | CommunicateInfo | NlAssertions

  /** The kinds, in the order the inner loop visits them. */
  const Kinds: seq<Kind> := [Actions, CommunicateInfo, NlAssertions]

  /** The key each kind has in the criteria and in the counters. */
  function KindName(k: Kind): string {
    match k
    case Actions => "actions"
    case CommunicateInfo => "communicate_info"
    case NlAssertions => "nl_assertions"
  }

  /** `len(items)` with `None` read as `[]`. */
  function KindLength(c: EvaluationCriteria, k: Kind): nat {
    match k
    case Actions => if c.actions.Some? then |c.actions.value| else 0
    case CommunicateInfo => if c.communicateInfo.Some? then |c.communicateInfo.value| else 0
    case NlAssertions => if c.nlAssertions.Some? then |c.nlAssertions.value| else 0
  }

  /** `1 if len(items) else 0`. */
  function NonEmpty(c: EvaluationCriteria, k: Kind): nat {
    if KindLength(c, k) > 0 then 1 else 0
  }

  /** The inner loop over one task: `counter[k] += measure(criteria, k)` for
      each kind of `ks`, in order. */
  function TallyKinds(cnt: seq<(Kind, nat)>, c: EvaluationCriteria, ks: seq<Kind>,
                      measure: (EvaluationCriteria, Kind) -> nat): seq<(Kind, nat)>
  {
    if ks == [] then cnt
    else Add(TallyKinds(cnt, c, ks[..|ks| - 1], measure), ks[|ks| - 1], measure(c, ks[|ks| - 1]))
  }

  /** A counter after the loop over `tasks`. */
  function TallyTasks(tasks: seq<Task>, measure: (EvaluationCriteria, Kind) -> nat): seq<(Kind, nat)> {
    if tasks == [] then []
    else TallyKinds(TallyTasks(tasks[..|tasks| - 1], measure), tasks[|tasks| - 1].criteria, Kinds, measure)
  }

  /** `measure` of kind `k`, summed over the tasks. */
  function SumOver(tasks: seq<Task>, measure: (EvaluationCriteria, Kind) -> nat, k: Kind): nat {
    if tasks == [] then 0
    else SumOver(tasks[..|tasks| - 1], measure, k) + measure(tasks[|tasks| - 1].criteria, k)
  }

  /** The counter `avg_counter` after the loop over `tasks`. */
  function LengthTally(tasks: seq<Task>): seq<(Kind, nat)> {
    TallyTasks(tasks, KindLength)
  }

  /** The counter `per_counter` after the loop over `tasks`. */
  function NonEmptyTally(tasks: seq<Task>): seq<(Kind, nat)> {
    TallyTasks(tasks, NonEmpty)
  }

  /** The summed lengths of kind `k`. */
  function SumLengths(tasks: seq<Task>, k: Kind): nat {
    SumOver(tasks, KindLength, k)
  }

  /** The number of tasks whose list of kind `k` is non-empty. */
  function CountNonEmpty(tasks: seq<Task>, k: Kind): nat {
    SumOver(tasks, NonEmpty, k)
  }

  /** One task adds its measure to each kind it visits, once. */
  lemma {:induction false} TallyKindsGet(cnt: seq<(Kind, nat)>, c: EvaluationCriteria, ks: seq<Kind>,
                                         measure: (EvaluationCriteria, Kind) -> nat, k: Kind)
    requires Distinct(ks)
    ensures Get(TallyKinds(cnt, c, ks, measure), k) == Get(cnt, k) + (if k in ks then measure(c, k) else 0)
  {
    if ks != [] {
      var init := ks[..|ks| - 1];
      TallyKindsGet(cnt, c, init, measure, k);
      AddGet(TallyKinds(cnt, c, init, measure), ks[|ks| - 1], measure(c, ks[|ks| - 1]));
      assert ks == init + [ks[|ks| - 1]];
      assert ks[|ks| - 1] !in init by {
        forall i | 0 <= i < |init| ensures init[i] != ks[|ks| - 1] {
          assert init[i] == ks[i];
        }
      }
    }
  }

  /** The inner loop over a counter that already holds every kind keeps its
      keys. */
  lemma {:induction false} TallyKindsKeepsKeys(cnt: seq<(Kind, nat)>, c: EvaluationCriteria, ks: seq<Kind>,
                                               measure: (EvaluationCriteria, Kind) -> nat)
    requires Keys(cnt) == Kinds
    ensures Keys(TallyKinds(cnt, c, ks, measure)) == Kinds
  {
    if ks != [] {
      var last := ks[|ks| - 1];
      TallyKindsKeepsKeys(cnt, c, ks[..|ks| - 1], measure);
      AddKeys(TallyKinds(cnt, c, ks[..|ks| - 1], measure), last, measure(c, last));
      assert last in Kinds by { assert last == Actions || last == CommunicateInfo || last == NlAssertions; }
    }
  }

  /** Over the empty counter the inner loop creates the keys it visits, in
      loop order. */
  lemma {:induction false} TallyKindsCreatesKeys(c: EvaluationCriteria, ks: seq<Kind>,
                                                 measure: (EvaluationCriteria, Kind) -> nat)
    requires Distinct(ks)
    ensures Keys(TallyKinds([], c, ks, measure)) == ks
  {
    if ks != [] {
      var init := ks[..|ks| - 1];
      var last := ks[|ks| - 1];
      TallyKindsCreatesKeys(c, init, measure);
      AddKeys(TallyKinds([], c, init, measure), last, measure(c, last));
      assert last !in init by {
        forall i | 0 <= i < |init| ensures init[i] != last {
          assert init[i] == ks[i];
        }
      }
      assert init + [last] == ks;
    }
  }

  /** Each counter holds, per kind, the measure summed over the tasks; its
      keys are the three kinds in loop order once there is a task, and none
      before. */
  lemma {:induction false} TallyTasksCounts(tasks: seq<Task>, measure: (EvaluationCriteria, Kind) -> nat)
    ensures forall k :: Get(TallyTasks(tasks, measure), k) == SumOver(tasks, measure, k)
    ensures Keys(TallyTasks(tasks, measure)) == if tasks == [] then [] else Kinds
  {
    if tasks != [] {
      var init := tasks[..|tasks| - 1];
      var c := tasks[|tasks| - 1].criteria;
      TallyTasksCounts(init, measure);
      forall k ensures Get(TallyTasks(tasks, measure), k) == SumOver(tasks, measure, k) {
        TallyKindsGet(TallyTasks(init, measure), c, Kinds, measure, k);
        assert k in Kinds by { assert k == Actions || k == CommunicateInfo || k == NlAssertions; }
      }
      if init == [] {
        TallyKindsCreatesKeys(c, Kinds, measure);
      } else {
        TallyKindsKeepsKeys(TallyTasks(init, measure), c, Kinds, measure);
      }
    }
  }

  /** No more tasks have a non-empty list than there are tasks, nor than
      there are items in all those lists together. */
  lemma {:induction false} NonEmptyBounds(tasks: seq<Task>, k: Kind)
    ensures CountNonEmpty(tasks, k) <= |tasks|
    ensures CountNonEmpty(tasks, k) <= SumLengths(tasks, k)
  {
    if tasks != [] {
      NonEmptyBounds(tasks[..|tasks| - 1], k);
    }
  }

  /** A task with every list missing adds nothing to either counter. */
  lemma MissingListsCountNothing(tasks: seq<Task>, id: string, k: Kind)
    ensures var t := Task(id, EvaluationCriteria(None, None, None));
      && SumLengths(tasks + [t], k) == SumLengths(tasks, k)
      && CountNonEmpty(tasks + [t], k) == CountNonEmpty(tasks, k)
  {
    var t := Task(id, EvaluationCriteria(None, None, None));
    assert (tasks + [t])[..|tasks|] == tasks;
  }

  /** The counters of one domain: its task count and the two counters. */
  datatype DomainCounts = DomainCounts(domain: Domain, totals: nat,
                                       lengths: seq<(Kind, nat)>, nonEmpty: seq<(Kind, nat)>)

  /** What the counters of a domain hold: per kind, the summed lengths and
      the number of non-empty lists, the latter bounded by both the number
      of tasks and the former; the keys are the three kinds once there is a
      task. */
  lemma DomainCountsMeaning(d: Domain, tasks: seq<Task>)
    ensures var r := DomainCounts(d, |tasks|, LengthTally(tasks), NonEmptyTally(tasks));
      && (forall k :: Get(r.lengths, k) == SumLengths(tasks, k))
      && (forall k :: Get(r.nonEmpty, k) == CountNonEmpty(tasks, k))
      && (forall k :: Get(r.nonEmpty, k) <= r.totals && Get(r.nonEmpty, k) <= Get(r.lengths, k))
      && Keys(r.lengths) == Keys(r.nonEmpty) == (if tasks == [] then [] else Kinds)
  {
    TallyTasksCounts(tasks, KindLength);
    TallyTasksCounts(tasks, NonEmpty);
    forall k ensures CountNonEmpty(tasks, k) <= |tasks| && CountNonEmpty(tasks, k) <= SumLengths(tasks, k) {
      NonEmptyBounds(tasks, k);
    }
  }

  /** The two nested loops over one domain's tasks. */
  method CountDomain(d: Domain, tasks: seq<Task>) returns (r: DomainCounts)
    ensures r.domain == d && r.totals == |tasks|
    ensures r.lengths == LengthTally(tasks)
    ensures r.nonEmpty == NonEmptyTally(tasks)
  {
    var lengths: seq<(Kind, nat)> := [];
    var nonEmpty: seq<(Kind, nat)> := [];
    for i := 0 to |tasks|
      invariant lengths == LengthTally(tasks[..i])
      invariant nonEmpty == NonEmptyTally(tasks[..i])
    {
      assert tasks[..i + 1][..i] == tasks[..i];
      var criteria := tasks[i].criteria;
      for j := 0 to |Kinds|
        invariant lengths == TallyKinds(TallyTasks(tasks[..i], KindLength), criteria, Kinds[..j], KindLength)
        invariant nonEmpty == TallyKinds(TallyTasks(tasks[..i], NonEmpty), criteria, Kinds[..j], NonEmpty)
      {
        assert Kinds[..j + 1][..j] == Kinds[..j];
        var n := KindLength(criteria, Kinds[j]);
        lengths := Add(lengths, Kinds[j], n);
        nonEmpty := Add(nonEmpty, Kinds[j], if n > 0 then 1 else 0);
      }
      assert Kinds[..|Kinds|] == Kinds;
    }
    assert tasks[..|tasks|] == tasks;
    r := DomainCounts(d, |tasks|, lengths, nonEmpty);
  }

  /** The domains `dataset_stats` visits, in order. */
  const StatsDomains: seq<Domain> := [Airline, Retail, Telecom]

  /** The outer loop over the three domains; `load` stands for reading a
      domain's task file. */
  method DatasetCounts(load: Domain -> seq<Task>) returns (out: seq<DomainCounts>)
    ensures |out| == |StatsDomains|
    ensures forall i :: 0 <= i < |out| ==>
      out[i] == DomainCounts(StatsDomains[i], |load(StatsDomains[i])|,
                             LengthTally(load(StatsDomains[i])),
                             NonEmptyTally(load(StatsDomains[i])))
  {
    out := [];
    for i := 0 to |StatsDomains|
      invariant |out| == i
      invariant forall j :: 0 <= j < i ==>
        out[j] == DomainCounts(StatsDomains[j], |load(StatsDomains[j])|,
                               LengthTally(load(StatsDomains[j])),
                               NonEmptyTally(load(StatsDomains[j])))
    {
      var counts := CountDomain(StatsDomains[i], load(StatsDomains[i]));
      out := out + [counts];
    }
  }
}
