/** The decision of `plan()`: which candidates qualify, how they are ranked, which one is selected. */
module Selection {
  import opened Integers
  import opened Domain
  import opened Evidence
  import opened Feasibility
  import opened Economics

  datatype PlanOutcome = PlanFound | NoValidPlan | NoDeadlineFeasiblePlan | NoCandidates

  predicate IsFeasible(c: Candidate, q: Request, ctx: Context) { Evaluate(c, q, ctx).Feasible? }

  predicate HardDeadline(q: Request) { q.recoveryDeadline.Some? || q.maxDuration.Some? }

  predicate MeetsBounds(c: Candidate, q: Request, now: i64) {
    && (HardDeadline(q) ==> EvaluateDeadline(c, q, now).outcome.HardFeasible?)
    && (q.maxLoss.Some? ==> ComputeEconomics(c, q).withinTolerance)
  }

  predicate Eligible(c: Candidate, q: Request, ctx: Context, now: i64) {
    IsFeasible(c, q, ctx) && MeetsBounds(c, q, now)
  }

  predicate Better(c: Candidate, d: Candidate, q: Request) {
    CandidatePrecedes(c, d, ComputeEconomics(c, q), ComputeEconomics(d, q))
  }

  // ---- Lists of positions ---------------------------------------------------------------------

  predicate Positions(idx: seq<nat>, cs: seq<Candidate>) { forall k :: 0 <= k < |idx| ==> idx[k] < |cs| }

  function Where(cs: seq<Candidate>, good: Candidate -> bool): (idx: seq<nat>)
    ensures Positions(idx, cs)
    ensures forall i :: i in idx <==> 0 <= i < |cs| && good(cs[i])
  {
    if cs == [] then [] else
      var n := |cs| - 1;
      Where(cs[..n], good) + (if good(cs[n]) then [n] else [])
  }

  function FeasibleUnder(q: Request, ctx: Context): Candidate -> bool { c => IsFeasible(c, q, ctx) }

  function EligibleUnder(q: Request, ctx: Context, now: i64): Candidate -> bool { c => Eligible(c, q, ctx, now) }

  // ---- Ranking --------------------------------------------------------------------------------

  /** No later position holds a better candidate than an earlier one. */
  predicate Sorted(order: seq<nat>, cs: seq<Candidate>, q: Request)
    requires Positions(order, cs)
  {
    forall i, j :: 0 <= i < j < |order| ==> !Better(cs[order[j]], cs[order[i]], q)
  }

  function Insert(order: seq<nat>, i: nat, cs: seq<Candidate>, q: Request): (r: seq<nat>)
    requires i < |cs| && Positions(order, cs)
    ensures Positions(r, cs) && |r| == |order| + 1
    ensures multiset(r) == multiset(order) + multiset{i}
    ensures r[0] == if order == [] || Better(cs[i], cs[order[0]], q) then i else order[0]
  {
    if order == [] then [i]
    else if Better(cs[i], cs[order[0]], q) then [i] + order
    else
      assert order == [order[0]] + order[1..];
      [order[0]] + Insert(order[1..], i, cs, q)
  }

  /** `rank_feasible`: a sort by the candidate order; here, stable insertion from the left. */
  function RankFeasible(idx: seq<nat>, cs: seq<Candidate>, q: Request): (order: seq<nat>)
    requires Positions(idx, cs)
    ensures Positions(order, cs)
    ensures multiset(order) == multiset(idx) && |order| == |idx|
  {
    if idx == [] then [] else
      var n := |idx| - 1;
      assert idx == idx[..n] + [idx[n]];
      Insert(RankFeasible(idx[..n], cs, q), idx[n], cs, q)
  }

  // ---- The decision ---------------------------------------------------------------------------

  /** The ranked positions are the ones that were sorted; the selected one is the first of them. */
  datatype Decision = Decision(outcome: PlanOutcome, ranking: seq<nat>) {
    predicate Selects() { ranking != [] }
  }

  function Decide(cs: seq<Candidate>, q: Request, ctx: Context, now: i64): (d: Decision)
    ensures Positions(d.ranking, cs)
    ensures d.outcome.PlanFound? ==> d.Selects()
  {
    if cs == [] then Decision(NoCandidates, [])
    else
      var feasible := Where(cs, FeasibleUnder(q, ctx));
      var eligible := Where(cs, EligibleUnder(q, ctx, now));
      if eligible == [] then
        if feasible == [] then Decision(NoValidPlan, [])
        else Decision(if HardDeadline(q) then NoDeadlineFeasiblePlan else NoValidPlan, RankFeasible(feasible, cs, q))
      else Decision(PlanFound, RankFeasible(eligible, cs, q))
  }

  /** The candidate that the decision selects. */
  function Selected(cs: seq<Candidate>, q: Request, ctx: Context, now: i64): Candidate
    requires Decide(cs, q, ctx, now).Selects()
  {
    cs[Decide(cs, q, ctx, now).ranking[0]]
  }

  /** `feasible_rank`: one more than the place in the ranking, zero when not ranked. */
  function RankOf(ranking: seq<nat>, i: nat): nat {
    if ranking == [] then 0
    else if ranking[0] == i then 1
    else
      var r := RankOf(ranking[1..], i);
      if r == 0 then 0 else r + 1
  }
}
