/**
 Which changes of a request's bounds keep every plan that was found. A deadline in the past counts as now,
 and time ends at INT64_MAX, so the exact condition is not just that the bounds are no tighter.
 */
module Relaxing {
  import opened Integers
  import opened Domain
  import opened Evidence
  import opened Economics
  import opened Selection
  import opened SelectionProofs
  import Feasibility
  import FeasibilityProofs

  /** `q'` asks the same as `q`, except for its deadline, its allowance and its loss bound. */
  predicate SameButBounds(q': Request, q: Request) {
    q' == q.(recoveryDeadline := q'.recoveryDeadline, maxDuration := q'.maxDuration, maxLoss := q'.maxLoss)
  }

  /** The latest completion that a request accepts. */
  function Limit(q: Request, now: i64): Option<int> {
    if MeantDeadline(q, now).None? then None else Some(Max(MeantDeadline(q, now).value, now))
  }

  /** No limit, a limit that is no earlier, or one that nothing with a known duration can miss. */
  predicate DeadlineRelaxes(q': Request, q: Request, now: i64) {
    || Limit(q', now).None?
    || (Limit(q, now).Some?
        && (Limit(q, now).value <= Limit(q', now).value || Completion(now, INT64_MAX) <= Limit(q', now).value))
  }

  /** No bound, the largest one, or one that is no smaller. */
  predicate LossRelaxes(q': Request, q: Request) {
    || q'.maxLoss.None?
    || q'.maxLoss.value == TWO_64 - 1
    || (q.maxLoss.Some? && q.maxLoss.value <= q'.maxLoss.value)
  }

  predicate Relaxes(q': Request, q: Request, now: i64) { DeadlineRelaxes(q', q, now) && LossRelaxes(q', q) }

  function LostProgress(c: Candidate): Option<u64> { if c.cost.Some? then c.cost.value.lostProgress else None }

  predicate OnTime(time: Option<i64>, q: Request, now: i64) {
    Limit(q, now).Some? ==> time.Some? && Completion(now, time.value) <= Limit(q, now).value
  }

  predicate Tolerable(lost: Option<u64>, q: Request) { q.maxLoss.Some? && lost.Some? ==> lost.value <= q.maxLoss.value }

  lemma MeetsBoundsMeans(c: Candidate, q: Request, now: i64)
    requires AllowanceFits(q, now)
    ensures MeetsBounds(c, q, now) <==> OnTime(ExpectedTime(c), q, now) && Tolerable(LostProgress(c), q)
  {
    HardFeasibleMeans(c, q, now);
    ToleranceMeans(c, q);
    hide EvaluateDeadline;
    hide ComputeEconomics;
  }

  lemma FeasibilityIgnoresBounds(c: Candidate, q: Request, q': Request, ctx: Context)
    requires SameButBounds(q', q)
    ensures IsFeasible(c, q', ctx) == IsFeasible(c, q, ctx)
  {
    assert Feasibility.StateHard(c, q') == Feasibility.StateHard(c, q);
    assert Feasibility.RecomputeHard(c, q', ctx) == Feasibility.RecomputeHard(c, q, ctx);
  }

  lemma RelaxedBoundsAreMet(c: Candidate, q: Request, q': Request, now: i64)
    requires AllowanceFits(q, now) && AllowanceFits(q', now)
    requires Relaxes(q', q, now) && MeetsBounds(c, q, now)
    ensures MeetsBounds(c, q', now)
  {
    MeetsBoundsMeans(c, q, now);
    MeetsBoundsMeans(c, q', now);
    hide MeetsBounds;
  }

  lemma WinnerIsEligible(cs: seq<Candidate>, q: Request, ctx: Context, now: i64)
    requires Decide(cs, q, ctx, now).outcome.PlanFound?
    ensures var c := Selected(cs, q, ctx, now);
            c in cs && IsFeasible(c, q, ctx) && MeetsBounds(c, q, now)
  {
    WinnerIsBest(cs, q, ctx, now);
    hide Decide;
    hide Selected;
    hide IsFeasible;
    hide MeetsBounds;
    hide EvidenceRow;
    hide Before;
  }

  lemma EligibleIsFound(cs: seq<Candidate>, c: Candidate, q: Request, ctx: Context, now: i64)
    requires c in cs && IsFeasible(c, q, ctx) && MeetsBounds(c, q, now)
    ensures Decide(cs, q, ctx, now).outcome.PlanFound? && !Better(c, Selected(cs, q, ctx, now), q)
  {
    OutcomeMeans(cs, q, ctx, now);
    assert Eligible(c, q, ctx, now);
    WinnerIsBest(cs, q, ctx, now);
    BetterMeans(c, Selected(cs, q, ctx, now), q);
    hide Decide;
    hide Selected;
    hide Better;
    hide IsFeasible;
    hide MeetsBounds;
    hide EvidenceRow;
    hide Before;
  }

  /** Relaxing a request keeps the plan found, and the old selection is never better than the new one. */
  lemma RelaxingNeverHurts(cs: seq<Candidate>, q: Request, q': Request, ctx: Context, now: i64)
    requires AllowanceFits(q, now) && AllowanceFits(q', now) && SameButBounds(q', q) && Relaxes(q', q, now)
    requires Decide(cs, q, ctx, now).outcome.PlanFound?
    ensures Decide(cs, q', ctx, now).outcome.PlanFound?
    ensures !Better(Selected(cs, q, ctx, now), Selected(cs, q', ctx, now), q')
  {
    hide *;
    var c := Selected(cs, q, ctx, now);
    WinnerIsEligible(cs, q, ctx, now);
    FeasibilityIgnoresBounds(c, q, q', ctx);
    RelaxedBoundsAreMet(c, q, q', now);
    EligibleIsFound(cs, c, q', ctx, now);
  }

  // ---- When the bounds are not relaxed --------------------------------------------------------

  /** The same candidate with another duration and another loss of progress. */
  function Costing(c: Candidate, time: Option<i64>, lost: Option<u64>): Candidate {
    var cost := if c.cost.Some? then c.cost.value else CostEvidence(None, None, None, None, None, 0);
    c.(cost := Some(cost.(expectedTime := time, lostProgress := lost)))
  }

  /** Feasibility looks at neither. */
  lemma FeasibilityIgnoresCosts(c: Candidate, q: Request, ctx: Context, time: Option<i64>, lost: Option<u64>)
    requires IsFeasible(c, q, ctx)
    ensures IsFeasible(Costing(c, time, lost), q, ctx)
  {
    FeasibilityProofs.FeasibleMeansShown(c, q, ctx);
    FeasibilityProofs.FeasibleMeansShown(Costing(c, time, lost), q, ctx);
    hide Feasibility.Evaluate;
  }

  /** A duration and a loss that the one request accepts and the other does not. */
  lemma RefutingCosts(q: Request, q': Request, now: i64) returns (time: Option<i64>, lost: Option<u64>)
    requires !Relaxes(q', q, now)
    ensures OnTime(time, q, now) && Tolerable(lost, q)
    ensures !(OnTime(time, q', now) && Tolerable(lost, q'))
  {
    if !LossRelaxes(q', q) {
      time, lost := Some(0), Some(q'.maxLoss.value + 1);
    } else if Limit(q, now).None? {
      time, lost := None, None;
    } else {
      time, lost := Some(Limit(q', now).value - now + 1), None;
    }
  }

  /**
   Given that some candidate is feasible, changing the bounds of a request keeps PLAN_FOUND for every list
   of candidates if and only if it relaxes them.
   */
  lemma RelaxingIff(c: Candidate, q: Request, q': Request, ctx: Context, now: i64)
    requires AllowanceFits(q, now) && AllowanceFits(q', now) && SameButBounds(q', q)
    requires IsFeasible(c, q, ctx)
    ensures (forall cs :: Decide(cs, q, ctx, now).outcome.PlanFound? ==> Decide(cs, q', ctx, now).outcome.PlanFound?)
            <==> Relaxes(q', q, now)
  {
    hide *;
    if Relaxes(q', q, now) {
      forall cs | Decide(cs, q, ctx, now).outcome.PlanFound? ensures Decide(cs, q', ctx, now).outcome.PlanFound? {
        RelaxingNeverHurts(cs, q, q', ctx, now);
      }
    } else {
      var time, lost := RefutingCosts(q, q', now);
      var d := Costing(c, time, lost);
      FeasibilityIgnoresCosts(c, q, ctx, time, lost);
      CostsAre(c, time, lost);
      MeetsBoundsMeans(d, q, now);
      MeetsBoundsMeans(d, q', now);
      SingleCandidate(d, q, ctx, now);
      SingleCandidate(d, q', ctx, now);
      EligibleMeans(d, q, ctx, now);
      EligibleMeans(d, q', ctx, now);
      assert !Decide([d], q', ctx, now).outcome.PlanFound?;
    }
  }

  lemma CostsAre(c: Candidate, time: Option<i64>, lost: Option<u64>)
    ensures ExpectedTime(Costing(c, time, lost)) == time && LostProgress(Costing(c, time, lost)) == lost
  {
  }

  lemma EligibleMeans(c: Candidate, q: Request, ctx: Context, now: i64)
    ensures Eligible(c, q, ctx, now) <==> IsFeasible(c, q, ctx) && MeetsBounds(c, q, now)
  {
    hide IsFeasible;
    hide MeetsBounds;
  }

  lemma SingleCandidate(c: Candidate, q: Request, ctx: Context, now: i64)
    ensures Decide([c], q, ctx, now).outcome.PlanFound? <==> Eligible(c, q, ctx, now)
  {
    hide Decide;
    hide Eligible;
    assert forall d :: d in [c] <==> d == c;
    OutcomeMeans([c], q, ctx, now);
  }

  /** The allowance of a request, if any, does not end before its deadline, both counting as now when past. */
  predicate AllowanceIsNoTighter(q: Request, now: i64)
    requires q.recoveryDeadline.Some?
  {
    || q.maxDuration.None?
    || q.maxDuration.value == INT64_MAX
    || Max(q.recoveryDeadline.value, now) <= Max(now + q.maxDuration.value, now)
  }

  lemma DroppingRelaxes(q: Request, now: i64)
    requires q.recoveryDeadline.Some? && AllowanceFits(q.(recoveryDeadline := None), now)
    ensures Relaxes(q.(recoveryDeadline := None), q, now) <==> AllowanceIsNoTighter(q, now)
    ensures SameButBounds(q.(recoveryDeadline := None), q) && AllowanceFits(q, now)
  {
  }

  /**
   Dropping the absolute deadline of a request brings its allowance into force, ignored until then. It keeps
   every plan if and only if there is no allowance, or it is unlimited, or it ends no earlier.
   */
  lemma DroppingTheDeadlineIff(c: Candidate, q: Request, ctx: Context, now: i64)
    requires q.recoveryDeadline.Some? && AllowanceFits(q.(recoveryDeadline := None), now)
    requires IsFeasible(c, q, ctx)
    ensures var q' := q.(recoveryDeadline := None);
            (forall cs :: Decide(cs, q, ctx, now).outcome.PlanFound? ==> Decide(cs, q', ctx, now).outcome.PlanFound?)
            <==> AllowanceIsNoTighter(q, now)
  {
    hide *;
    DroppingRelaxes(q, now);
    RelaxingIff(c, q, q.(recoveryDeadline := None), ctx, now);
  }
}
