/** The loops of `plan`: the feasible candidates, the eligible ones among them, the ranks. */
module SelectionLoops {
  import opened Integers
  import opened Domain
  import opened Evidence
  import opened Economics
  import opened Selection
  import Feasibility
  import SelectionProofs

  /** The positions of `idx` whose candidates meet the hard bounds. */
  function Meeting(idx: seq<nat>, cs: seq<Candidate>, q: Request, now: i64): (r: seq<nat>)
    requires Positions(idx, cs)
    ensures Positions(r, cs)
  {
    if idx == [] then [] else
      var n := |idx| - 1;
      Meeting(idx[..n], cs, q, now) + (if MeetsBounds(cs[idx[n]], q, now) then [idx[n]] else [])
  }

  lemma MeetingOfAdded(idx: seq<nat>, i: nat, cs: seq<Candidate>, q: Request, now: i64)
    requires Positions(idx, cs) && i < |cs|
    ensures Meeting(idx + [i], cs, q, now) == Meeting(idx, cs, q, now) + (if MeetsBounds(cs[i], q, now) then [i] else [])
  {
    assert (idx + [i])[..|idx|] == idx;
  }

  lemma MeetingOfMaybe(idx: seq<nat>, i: nat, added: bool, cs: seq<Candidate>, q: Request, now: i64)
    requires Positions(idx, cs) && i < |cs|
    ensures Meeting(idx + (if added then [i] else []), cs, q, now)
         == Meeting(idx, cs, q, now) + (if added && MeetsBounds(cs[i], q, now) then [i] else [])
  {
    if added {
      MeetingOfAdded(idx, i, cs, q, now);
    } else {
      assert idx + [] == idx;
    }
  }

  lemma MeetingOfPrefix(idx: seq<nat>, cs: seq<Candidate>, c: Candidate, q: Request, now: i64)
    requires Positions(idx, cs)
    ensures Meeting(idx, cs + [c], q, now) == Meeting(idx, cs, q, now)
    decreases |idx|
  {
    hide MeetsBounds;
    if idx != [] {
      MeetingOfPrefix(idx[..|idx| - 1], cs, c, q, now);
    }
  }

  /** Filtering the feasible positions by the bounds yields the eligible positions. */
  lemma {:induction false} EligibleAmongFeasible(cs: seq<Candidate>, q: Request, ctx: Context, now: i64)
    ensures Meeting(Where(cs, FeasibleUnder(q, ctx)), cs, q, now) == Where(cs, EligibleUnder(q, ctx, now))
    decreases |cs|
  {
    if cs == [] {
      assert Where(cs, FeasibleUnder(q, ctx)) == [] && Where(cs, EligibleUnder(q, ctx, now)) == [];
    } else {
      hide *;
      var n := |cs| - 1;
      var front, last := cs[..n], cs[n];
      var idx := Where(front, FeasibleUnder(q, ctx));
      assert cs == front + [last];
      EligibleAmongFeasible(front, q, ctx, now);
      SelectionProofs.WhereOfAdded(front, last, FeasibleUnder(q, ctx));
      SelectionProofs.WhereOfAdded(front, last, EligibleUnder(q, ctx, now));
      MeetingOfPrefix(idx, front, last, q, now);
      MeetingOfMaybe(idx, n, FeasibleUnder(q, ctx)(last), cs, q, now);
      EligibleIsBoth(last, q, ctx, now);
    }
  }

  lemma EligibleIsBoth(c: Candidate, q: Request, ctx: Context, now: i64)
    ensures EligibleUnder(q, ctx, now)(c) <==> FeasibleUnder(q, ctx)(c) && MeetsBounds(c, q, now)
  {
    hide MeetsBounds;
    hide IsFeasible;
  }

  method FeasibleOnes(cs: seq<Candidate>, q: Request, ctx: Context) returns (idx: seq<nat>)
    ensures idx == Where(cs, FeasibleUnder(q, ctx))
  {
    hide Feasibility.Evaluate;
    idx := [];
    for i := 0 to |cs|
      invariant idx == Where(cs[..i], FeasibleUnder(q, ctx))
    {
      var verdict, violations := Feasibility.EvaluateFeasibility(cs[i], q, ctx);
      assert cs[..i + 1][..i] == cs[..i];
      if verdict.Feasible? {
        idx := idx + [i];
      }
    }
    assert cs[..|cs|] == cs;
  }

  method EligibleOnes(feasible: seq<nat>, cs: seq<Candidate>, q: Request, now: i64) returns (idx: seq<nat>)
    requires Positions(feasible, cs)
    ensures idx == Meeting(feasible, cs, q, now)
  {
    var hardDeadline := q.recoveryDeadline.Some? || q.maxDuration.Some?;
    var hardProgress := q.maxLoss.Some?;
    hide EvaluateDeadline;
    hide ComputeEconomics;
    idx := [];
    for k := 0 to |feasible|
      invariant idx == Meeting(feasible[..k], cs, q, now)
    {
      var i := feasible[k];
      var deadlineOk, progressOk := true, true;
      if hardDeadline {
        deadlineOk := EvaluateDeadline(cs[i], q, now).outcome.HardFeasible?;
      }
      if hardProgress {
        progressOk := ComputeEconomics(cs[i], q).withinTolerance;
      }
      MeetingOfAdded(feasible[..k], i, cs, q, now);
      assert feasible[..k + 1] == feasible[..k] + [i];
      if deadlineOk && progressOk {
        idx := idx + [i];
      }
    }
    assert feasible[..|feasible|] == feasible;
  }

  /** `feasible_rank`: one loop over the ranking. */
  method AssignRanks(n: nat, ranking: seq<nat>) returns (ranks: seq<nat>)
    requires forall k :: 0 <= k < |ranking| ==> ranking[k] < n
    requires forall i, j :: 0 <= i < j < |ranking| ==> ranking[i] != ranking[j]
    ensures |ranks| == n && forall i :: 0 <= i < n ==> ranks[i] == RankOf(ranking, i)
  {
    ranks := seq(n, i => 0);
    for k := 0 to |ranking|
      invariant |ranks| == n
      invariant forall j :: 0 <= j < k ==> ranks[ranking[j]] == j + 1
      invariant forall i :: 0 <= i < n && i !in ranking[..k] ==> ranks[i] == 0
    {
      ranks := ranks[ranking[k] := k + 1];
      assert ranking[..k + 1] == ranking[..k] + [ranking[k]];
    }
    assert ranking[..|ranking|] == ranking;
    SelectionProofs.RanksAreBijective(ranking);
    hide RankOf;
    forall i | 0 <= i < n ensures ranks[i] == RankOf(ranking, i) {
      if i in ranking {
        var j :| 0 <= j < |ranking| && ranking[j] == i;
      }
    }
  }

  /** The decision of `plan`, with the rank of every candidate. */
  method DecideOn(cs: seq<Candidate>, q: Request, ctx: Context, now: i64) returns (d: Decision, ranks: seq<nat>)
    ensures d == Decide(cs, q, ctx, now)
    ensures |ranks| == |cs| && forall i :: 0 <= i < |cs| ==> ranks[i] == RankOf(d.ranking, i)
  {
    hide IsFeasible;
    hide MeetsBounds;
    hide Better;
    if cs == [] {
      return Decision(NoCandidates, []), [];
    }
    var feasible := FeasibleOnes(cs, q, ctx);
    EligibleAmongFeasible(cs, q, ctx, now);
    var eligible := EligibleOnes(feasible, cs, q, now);
    if eligible == [] {
      if feasible == [] {
        d := Decision(NoValidPlan, []);
      } else if q.recoveryDeadline.Some? || q.maxDuration.Some? {
        d := Decision(NoDeadlineFeasiblePlan, RankFeasible(feasible, cs, q));
      } else {
        d := Decision(NoValidPlan, RankFeasible(feasible, cs, q));
      }
    } else {
      d := Decision(PlanFound, RankFeasible(eligible, cs, q));
    }
    assert d == Decide(cs, q, ctx, now);
    RankedOnce(cs, q, ctx, now);
    hide Decide;
    ranks := AssignRanks(|cs|, d.ranking);
  }

  lemma RankedOnce(cs: seq<Candidate>, q: Request, ctx: Context, now: i64)
    ensures var ranking := Decide(cs, q, ctx, now).ranking;
            forall i, j :: 0 <= i < j < |ranking| ==> ranking[i] != ranking[j]
  {
    SelectionProofs.RankingIsBijection(cs, q, ctx, now);
    hide Decide;
    hide RankOf;
    hide Sorted;
  }
}
