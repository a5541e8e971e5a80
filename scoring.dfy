/**
 `eval`: score a run from its review records. Every simulation without a
 review passed; every reviewed one earns a credit chosen by the first rule
 its flags match (1.0, 0.5, 0.1 or 0, kept here in tenths so that all the
 arithmetic is on integers). Then a counter tallies, per agent-error flag,
 how many reviews set it.
 */
module Scoring {
  import opened Wrappers
  import opened Data
  import opened Reviews
  import opened Counters

  /** The five agent-error flags, in the order the tally visits them. */
  const AgentErrKeys: seq<string> := [
    AgentFailedToCheckDetails, AgentMadeUnwantedAction, AgentMadeMistakeDueToPressure,
    AgentMadeCalculationError, AgentMadeCalculationErrorAboutTime]

  /** The rule a review matches first. */
  datatype Tier = UserFault | NoAgentError | GaveInToPressure | AgentFault

  /** The credit of each tier, in tenths. */
  function Tenths(t: Tier): nat {
    match t
    case UserFault => 10
    case NoAgentError => 5
    case GaveInToPressure => 1
    case AgentFault => 0
  }

  /** The user quit too early or gave wrong details. */
  predicate UserAtFault(c: ReviewContent) {
    Flag(c, UserQuitConversationPrematurely) || Flag(c, UserGaveWrongDetailsUnintentionally)
  }

  /** None of the five agent-error flags is set. */
  predicate NoAgentErrors(c: ReviewContent) {
    forall i :: 0 <= i < |AgentErrKeys| ==> !Flag(c, AgentErrKeys[i])
  }

  /** The user put pressure on the agent and the agent erred because of it. */
  predicate PressuredMistake(c: ReviewContent) {
    Flag(c, UserPutPressureOnAgent) && Flag(c, AgentMadeMistakeDueToPressure)
  }

  function TierOf(c: ReviewContent): Tier {
    if UserAtFault(c) then UserFault
    else if NoAgentErrors(c) then NoAgentError
    else if PressuredMistake(c) then GaveInToPressure
    else AgentFault
  }

  /** What one review adds to `new_acc`, in tenths. */
  function Credit(c: ReviewContent): nat {
    Tenths(TierOf(c))
  }

  /** A user fault earns full credit whatever the agent-error flags say. */
  lemma UserFaultWins(c: ReviewContent)
    ensures Credit(c) == 10 <==> UserAtFault(c)
  {
  }

  /** Half credit is earned exactly when the user is not at fault and all
      five agent-error flags are false (absent counts as false). */
  lemma HalfCredit(c: ReviewContent)
    ensures Credit(c) == 5 <==>
      !UserAtFault(c) && forall k :: k in AgentErrKeys ==> !Flag(c, k)
  {
  }

  /** A tenth is earned exactly when the user is not at fault and the agent
      gave in to pressure: since that mistake is itself an agent error, the
      half-credit rule can never catch such a review first. */
  lemma TenthCredit(c: ReviewContent)
    ensures Credit(c) == 1 <==> !UserAtFault(c) && PressuredMistake(c)
  {
    if !UserAtFault(c) && PressuredMistake(c) {
      assert Flag(c, AgentErrKeys[2]);
    }
  }

  /** No credit is earned exactly when the user is not at fault, some agent
      error is set, and it was not a mistake under pressure. */
  lemma NoCredit(c: ReviewContent)
    ensures Credit(c) == 0 <==>
      !UserAtFault(c) && (exists k :: k in AgentErrKeys && Flag(c, k)) && !PressuredMistake(c)
  {
    if Credit(c) == 0 {
      var i :| 0 <= i < |AgentErrKeys| && Flag(c, AgentErrKeys[i]);
      assert AgentErrKeys[i] in AgentErrKeys;
    }
  }

  /** The credit depends on eight flags only (the two user-fault flags, the
      pressure flag and the five agent-error flags): two reviews that agree
      on them earn the same, whatever else they hold. */
  lemma CreditReadsEightFlags(c: ReviewContent, d: ReviewContent)
    requires Flag(c, UserQuitConversationPrematurely) == Flag(d, UserQuitConversationPrematurely)
    requires Flag(c, UserGaveWrongDetailsUnintentionally) == Flag(d, UserGaveWrongDetailsUnintentionally)
    requires Flag(c, UserPutPressureOnAgent) == Flag(d, UserPutPressureOnAgent)
    requires forall k :: k in AgentErrKeys ==> Flag(c, k) == Flag(d, k)
    ensures Credit(c) == Credit(d)
  {
    assert forall i :: 0 <= i < |AgentErrKeys| ==> Flag(c, AgentErrKeys[i]) == Flag(d, AgentErrKeys[i]);
  }

  /** A review with no flags at all reads as "no agent error". */
  lemma NoFlagsEarnsHalf(review: string)
    ensures Credit(ReviewContent(review, map[])) == 5
  {
  }

  /** The credits of a list of reviews, summed. */
  function WeightedCredit(revs: seq<ReviewRecord>): nat {
    if revs == [] then 0
    else WeightedCredit(revs[..|revs| - 1]) + Credit(revs[|revs| - 1].content)
  }

  /** Each review adds at most a whole point. */
  lemma {:induction false} WeightedCreditBound(revs: seq<ReviewRecord>)
    ensures WeightedCredit(revs) <= 10 * |revs|
  {
    if revs != [] {
      WeightedCreditBound(revs[..|revs| - 1]);
    }
  }

  /** How many reviews set flag `k`. */
  function CountFlag(revs: seq<ReviewRecord>, k: string): nat {
    if revs == [] then 0
    else CountFlag(revs[..|revs| - 1], k) + (if Flag(revs[|revs| - 1].content, k) then 1 else 0)
  }

  /** No flag is set by more reviews than there are. */
  lemma {:induction false} CountFlagBound(revs: seq<ReviewRecord>, k: string)
    ensures CountFlag(revs, k) <= |revs|
  {
    if revs != [] {
      CountFlagBound(revs[..|revs| - 1], k);
    }
  }

  /** How many of the keys `ks` one review sets. */
  function FlaggedCount(c: ReviewContent, ks: seq<string>): nat {
    if ks == [] then 0
    else FlaggedCount(c, ks[..|ks| - 1]) + (if Flag(c, ks[|ks| - 1]) then 1 else 0)
  }

  /** The counts of the keys `ks`, summed. */
  function SumCounts(revs: seq<ReviewRecord>, ks: seq<string>): nat {
    if ks == [] then 0
    else SumCounts(revs, ks[..|ks| - 1]) + CountFlag(revs, ks[|ks| - 1])
  }

  /** The inner loop of the tally over one review: `cnt[k] += 1` for each
      key of `ks`, in order, that the review sets. */
  function TallyFlags(cnt: seq<(string, nat)>, c: ReviewContent, ks: seq<string>): seq<(string, nat)> {
    if ks == [] then cnt
    else
      var before := TallyFlags(cnt, c, ks[..|ks| - 1]);
      if Flag(c, ks[|ks| - 1]) then Add(before, ks[|ks| - 1], 1) else before
  }

  /** `err_counts` after the tally loop over `revs`. */
  function ErrorTally(revs: seq<ReviewRecord>): seq<(string, nat)> {
    if revs == [] then []
    else TallyFlags(ErrorTally(revs[..|revs| - 1]), revs[|revs| - 1].content, AgentErrKeys)
  }

  /** One review raises each distinct key it sets by one, and nothing else. */
  lemma {:induction false} TallyFlagsGet(cnt: seq<(string, nat)>, c: ReviewContent, ks: seq<string>, k: string)
    requires Distinct(ks)
    ensures Get(TallyFlags(cnt, c, ks), k) == Get(cnt, k) + (if k in ks && Flag(c, k) then 1 else 0)
  {
    if ks != [] {
      var init := ks[..|ks| - 1];
      TallyFlagsGet(cnt, c, init, k);
      AddGet(TallyFlags(cnt, c, init), ks[|ks| - 1], 1);
      assert ks == init + [ks[|ks| - 1]];
      assert k in ks <==> k in init || k == ks[|ks| - 1];
      assert ks[|ks| - 1] !in init by {
        forall i | 0 <= i < |init| ensures init[i] != ks[|ks| - 1] {
          assert init[i] == ks[i];
        }
      }
    }
  }

  /** The inner loop keeps the keys distinct and the counts positive, and
      adds to the sum of the counts the number of keys the review sets. */
  lemma {:induction false} TallyFlagsShape(cnt: seq<(string, nat)>, c: ReviewContent, ks: seq<string>)
    requires DistinctKeys(cnt) && Positive(cnt)
    ensures DistinctKeys(TallyFlags(cnt, c, ks)) && Positive(TallyFlags(cnt, c, ks))
    ensures Total(TallyFlags(cnt, c, ks)) == Total(cnt) + FlaggedCount(c, ks)
  {
    if ks != [] {
      var init := ks[..|ks| - 1];
      TallyFlagsShape(cnt, c, init);
      if Flag(c, ks[|ks| - 1]) {
        var before := TallyFlags(cnt, c, init);
        AddKeepsDistinct(before, ks[|ks| - 1], 1);
        AddPositive(before, ks[|ks| - 1], 1);
        AddTotal(before, ks[|ks| - 1], 1);
      }
    }
  }

  /** Summing the counts of `ks` over one more review adds what that review
      sets among `ks`. */
  lemma {:induction false} SumCountsSnoc(revs: seq<ReviewRecord>, ks: seq<string>)
    requires revs != []
    ensures SumCounts(revs, ks) == SumCounts(revs[..|revs| - 1], ks) + FlaggedCount(revs[|revs| - 1].content, ks)
  {
    if ks != [] {
      SumCountsSnoc(revs, ks[..|ks| - 1]);
    }
  }

  lemma AgentErrKeysDistinct()
    ensures Distinct(AgentErrKeys)
  {
  }

  /** `err_counts[k]` is the number of reviews that set `k` for each of the
      five agent-error flags and 0 for any other key; keys are distinct and
      every count positive; `total_errs` is the sum of the five counts. */
  lemma {:induction false} ErrorTallyCounts(revs: seq<ReviewRecord>)
    ensures DistinctKeys(ErrorTally(revs)) && Positive(ErrorTally(revs))
    ensures forall k :: Get(ErrorTally(revs), k) == if k in AgentErrKeys then CountFlag(revs, k) else 0
    ensures Total(ErrorTally(revs)) == SumCounts(revs, AgentErrKeys)
  {
    if revs == [] {
      assert forall k :: Get(ErrorTally(revs), k) == 0;
      assert forall ks: seq<string> :: SumCounts(revs, ks) == 0 by {
        forall ks: seq<string> ensures SumCounts(revs, ks) == 0 {
          SumCountsEmpty(revs, ks);
        }
      }
    } else {
      var init := revs[..|revs| - 1];
      var c := revs[|revs| - 1].content;
      ErrorTallyCounts(init);
      AgentErrKeysDistinct();
      TallyFlagsShape(ErrorTally(init), c, AgentErrKeys);
      forall k ensures Get(ErrorTally(revs), k) == if k in AgentErrKeys then CountFlag(revs, k) else 0 {
        TallyFlagsGet(ErrorTally(init), c, AgentErrKeys, k);
      }
      SumCountsSnoc(revs, AgentErrKeys);
    }
  }

  /** No reviews, no counts. */
  lemma {:induction false} SumCountsEmpty(revs: seq<ReviewRecord>, ks: seq<string>)
    requires revs == []
    ensures SumCounts(revs, ks) == 0
  {
    if ks != [] {
      SumCountsEmpty(revs, ks[..|ks| - 1]);
    }
  }

  /** Exactly the agent-error flags some review sets are reported, each with
      a count of at most the number of reviews; nothing is reported exactly
      when `total_errs` is 0, so the percentages never divide by zero. */
  lemma ErrorTallyReportsNonZero(revs: seq<ReviewRecord>)
    ensures forall k :: k in Keys(ErrorTally(revs)) <==> k in AgentErrKeys && CountFlag(revs, k) > 0
    ensures forall i :: 0 <= i < |ErrorTally(revs)| ==> 0 < ErrorTally(revs)[i].1 <= |revs|
    ensures ErrorTally(revs) == [] <==> Total(ErrorTally(revs)) == 0
  {
    var t := ErrorTally(revs);
    ErrorTallyCounts(revs);
    forall i | 0 <= i < |t| ensures t[i].1 == Get(t, t[i].0) {
      GetAtEntry(t, i);
    }
    forall k ensures k in Keys(t) <==> k in AgentErrKeys && CountFlag(revs, k) > 0 {
      if k in Keys(t) {
        var i :| 0 <= i < |t| && Keys(t)[i] == k;
        assert t[i].0 == k;
      }
    }
    forall i | 0 <= i < |t| ensures t[i].1 <= |revs| {
      CountFlagBound(revs, t[i].0);
    }
    if t != [] {
      assert t == [t[0]] + t[1..];
    }
  }

  datatype EvalError = ZeroDivision

  /** What `eval` reports: the number of simulations, `base_acc`, `new_acc`
      in tenths, and the agent-error counter with its total. */
  datatype Scores = Scores(total: nat, baseAcc: int, newAccTenths: int,
                           errCounts: seq<(string, nat)>, totalErrs: nat)

  /** `eval` on the simulations and reviews loaded for a run: the pass rate
      divides by the number of simulations, which fails when there are
      none. */
  function EvalSpec(sims: seq<Simulation>, revs: seq<ReviewRecord>): (r: Result<Scores, EvalError>)
    ensures r.Err? <==> |sims| == 0
  {
    if |sims| == 0 then Err(ZeroDivision)
    else
      var base := |sims| - |revs|;
      Ok(Scores(|sims|, base, 10 * base + WeightedCredit(revs), ErrorTally(revs), Total(ErrorTally(revs))))
  }

  /** The weighted score lies between the plain one and the plain one plus
      a point per review, and the tally is as `ErrorTallyCounts` states. */
  lemma EvalScoreBounds(sims: seq<Simulation>, revs: seq<ReviewRecord>)
    requires EvalSpec(sims, revs).Ok?
    ensures var s := EvalSpec(sims, revs).value;
      && s.baseAcc == s.total - |revs|
      && 10 * s.baseAcc <= s.newAccTenths <= 10 * s.baseAcc + 10 * |revs|
      && s.totalErrs == SumCounts(revs, AgentErrKeys)
  {
    WeightedCreditBound(revs);
    ErrorTallyCounts(revs);
  }

  method Eval(sims: seq<Simulation>, revs: seq<ReviewRecord>) returns (r: Result<Scores, EvalError>)
    ensures r == EvalSpec(sims, revs)
    ensures r.Err? <==> |sims| == 0
  {
    var total := |sims|;
    var baseAcc := total - |revs|;
    var newAcc := 10 * baseAcc;
    for i := 0 to |revs|
      invariant newAcc == 10 * baseAcc + WeightedCredit(revs[..i])
    {
      assert revs[..i + 1][..i] == revs[..i];
      var c := revs[i].content;
      if Flag(c, UserQuitConversationPrematurely) || Flag(c, UserGaveWrongDetailsUnintentionally) {
        newAcc := newAcc + 10;
      } else if NoAgentErrors(c) {
        newAcc := newAcc + 5;
      } else if Flag(c, UserPutPressureOnAgent) && Flag(c, AgentMadeMistakeDueToPressure) {
        newAcc := newAcc + 1;
      }
    }
    assert revs[..|revs|] == revs;
    if total == 0 {
      return Err(ZeroDivision);
    }

    var errCounts: seq<(string, nat)> := [];
    for i := 0 to |revs|
      invariant errCounts == ErrorTally(revs[..i])
    {
      assert revs[..i + 1][..i] == revs[..i];
      var c := revs[i].content;
      for j := 0 to |AgentErrKeys|
        invariant errCounts == TallyFlags(ErrorTally(revs[..i]), c, AgentErrKeys[..j])
      {
        assert AgentErrKeys[..j + 1][..j] == AgentErrKeys[..j];
        if Flag(c, AgentErrKeys[j]) {
          errCounts := Add(errCounts, AgentErrKeys[j], 1);
        }
      }
      assert AgentErrKeys[..|AgentErrKeys|] == AgentErrKeys;
    }
    assert revs[..|revs|] == revs;
    var totalErrs := Total(errCounts);
    r := Ok(Scores(total, baseAcc, newAcc, errCounts, totalErrs));
  }

  /** Four simulations, two of them reviewed: one review with no agent
      error (half a point) and one with an unmitigated agent error (none)
      give 2 plain and 2.5 weighted passes. */
  lemma EvalWorkedExample(sims: seq<Simulation>, half: ReviewRecord, none: ReviewRecord)
    requires |sims| == 4
    requires !UserAtFault(half.content) && NoAgentErrors(half.content)
    requires !UserAtFault(none.content) && Flag(none.content, AgentMadeUnwantedAction)
    requires !Flag(none.content, AgentMadeMistakeDueToPressure)
    ensures EvalSpec(sims, [half, none]).Ok?
    ensures EvalSpec(sims, [half, none]).value.baseAcc == 2
    ensures EvalSpec(sims, [half, none]).value.newAccTenths == 25
  {
    var revs := [half, none];
    assert revs[..1] == [half] && [half][..0] == [];
    assert Credit(half.content) == 5;
    assert Flag(none.content, AgentErrKeys[1]);
    assert Credit(none.content) == 0;
    assert WeightedCredit(revs) == WeightedCredit([half]) + 0 == 5;
  }

  /** A single review setting exactly two agent-error flags is reported
      under those two keys only, once each, in key order: keys no review
      sets do not appear at all. */
  lemma TallyWorkedExample(rec: ReviewRecord)
    requires Flag(rec.content, AgentMadeUnwantedAction) && Flag(rec.content, AgentMadeCalculationError)
    requires !Flag(rec.content, AgentFailedToCheckDetails)
    requires !Flag(rec.content, AgentMadeMistakeDueToPressure)
    requires !Flag(rec.content, AgentMadeCalculationErrorAboutTime)
    ensures ErrorTally([rec]) == [(AgentMadeUnwantedAction, 1), (AgentMadeCalculationError, 1)]
    ensures Total(ErrorTally([rec])) == 2
  {
    var c := rec.content;
    var ks := AgentErrKeys;
    assert [rec][..0] == [];
    assert ks[..5] == ks;
    assert ks[..1][..0] == [] && ks[..2][..1] == ks[..1] && ks[..3][..2] == ks[..2];
    assert ks[..4][..3] == ks[..3] && ks[..5][..4] == ks[..4];
    assert ks[..1][0] == AgentFailedToCheckDetails && ks[..2][1] == AgentMadeUnwantedAction;
    assert ks[..3][2] == AgentMadeMistakeDueToPressure && ks[..4][3] == AgentMadeCalculationError;
    assert ks[4] == AgentMadeCalculationErrorAboutTime;
    var t0 := TallyFlags([], c, ks[..1][..0]);
    assert t0 == [];
    var t1 := TallyFlags([], c, ks[..1]);
    assert !Flag(c, ks[..1][0]);
    assert t1 == t0;
    var t2 := TallyFlags([], c, ks[..2]);
    assert t2 == Add(t1, AgentMadeUnwantedAction, 1) == [(AgentMadeUnwantedAction, 1)];
    var t3 := TallyFlags([], c, ks[..3]);
    assert t3 == t2;
    var t4 := TallyFlags([], c, ks[..4]);
    assert AgentMadeUnwantedAction != AgentMadeCalculationError by {
      assert AgentMadeUnwantedAction[11] != AgentMadeCalculationError[11];
    }
    assert t4 == Add(t3, AgentMadeCalculationError, 1);
    assert Add(t3, AgentMadeCalculationError, 1) == [(AgentMadeUnwantedAction, 1)] + Add([], AgentMadeCalculationError, 1);
    assert t4 == [(AgentMadeUnwantedAction, 1), (AgentMadeCalculationError, 1)];
    assert TallyFlags([], c, ks[..5]) == t4;
    assert ErrorTally([rec]) == t4;
    assert Total(t4) == 1 + Total(t4[1..]) && t4[1..] == [(AgentMadeCalculationError, 1)];
  }
}
