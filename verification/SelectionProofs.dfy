/** Optimality, order independence and monotonicity of the decision. */
module SelectionProofs {
  import opened Integers
  import opened Domain
  import opened Evidence
  import opened Economics
  import opened Selection

  // ---- The candidate order --------------------------------------------------------------------

  /** What ties are broken by. */
  function Identity(c: Candidate): (u64, u64, Strategy) { (c.candidateId, c.generation, c.strategy) }

  predicate Distinct(cs: seq<Candidate>) {
    forall i, j :: 0 <= i < j < |cs| ==> Identity(cs[i]) != Identity(cs[j])
  }

  // ---- The order, read off the evidence -------------------------------------------------------

  /**
   What the order looks at, smaller first: preserved progress, where silence comes before every number and more
   before less; lost progress, duration and cost, where silence comes last and less before more; risk;
   confidence, which counts only beside a cost, more before less; and the identity.
   */
  function EvidenceRow(c: Candidate): (r: seq<int>)
    ensures |r| == 13
  {
    var preserved: Option<int> := if c.cost.Some? then c.cost.value.preservedProgress else None;
    var lost: Option<int> := if c.cost.Some? then c.cost.value.lostProgress else None;
    var time: Option<int> := if c.cost.Some? then c.cost.value.expectedTime else None;
    var units: Option<int> := if c.cost.Some? then c.cost.value.costUnits else None;
    var confidence: int := if c.cost.Some? && c.authority.Some? then c.authority.value.confidence else 0;
    [if preserved.None? then 0 else 1, if preserved.None? then 0 else -preserved.value,
     if lost.None? then 1 else 0, if lost.None? then 0 else lost.value,
     if time.None? then 1 else 0, if time.None? then 0 else time.value,
     if units.None? then 1 else 0, if units.None? then 0 else units.value,
     if c.cost.Some? then c.cost.value.risk else 0, -confidence, c.candidateId, c.generation, c.strategy]
  }

  lemma EvidenceRowIsRow(c: Candidate, q: Request)
    ensures EvidenceRow(c) == Row(c, ComputeEconomics(c, q))
  {
  }

  /** One candidate is better than another exactly when its evidence comes first, whatever the request. */
  lemma BetterMeans(c: Candidate, d: Candidate, q: Request)
    ensures Better(c, d, q) <==> Before(EvidenceRow(c), EvidenceRow(d))
  {
    hide CandidatePrecedes;
    hide Before;
    hide Row;
    hide ComputeEconomics;
    hide EvidenceRow;
    EvidenceRowIsRow(c, q);
    EvidenceRowIsRow(d, q);
    PrecedesIsBefore(c, d, ComputeEconomics(c, q), ComputeEconomics(d, q));
  }

  lemma RowEndsInIdentity(c: Candidate, e: Economy, d: Candidate, f: Economy)
    requires Row(c, e) == Row(d, f)
    ensures Identity(c) == Identity(d)
  {
    assert Row(c, e)[8..] == Tail(c, e) && Row(d, f)[8..] == Tail(d, f);
    assert Tail(c, e)[2] == Tail(d, f)[2] && Tail(c, e)[3] == Tail(d, f)[3] && Tail(c, e)[4] == Tail(d, f)[4];
  }

  /** A strict total order on candidates with different identities. */
  lemma BetterIsStrictTotal(c: Candidate, d: Candidate, q: Request)
    ensures !Better(c, c, q)
    ensures Better(c, d, q) ==> !Better(d, c, q)
    ensures Identity(c) != Identity(d) ==> Better(c, d, q) || Better(d, c, q)
  {
    var e, f := ComputeEconomics(c, q), ComputeEconomics(d, q);
    hide CandidatePrecedes;
    hide Before;
    hide Row;
    PrecedesIsBefore(c, c, e, e);
    PrecedesIsBefore(c, d, e, f);
    PrecedesIsBefore(d, c, f, e);
    BeforeIsStrict(Row(c, e), Row(d, f));
    if Row(c, e) == Row(d, f) {
      RowEndsInIdentity(c, e, d, f);
    }
  }

  lemma BetterIsTransitive(c: Candidate, d: Candidate, b: Candidate, q: Request)
    requires Better(c, d, q) && Better(d, b, q)
    ensures Better(c, b, q)
  {
    var e, f, g := ComputeEconomics(c, q), ComputeEconomics(d, q), ComputeEconomics(b, q);
    hide CandidatePrecedes;
    hide Before;
    hide Row;
    PrecedesIsBefore(c, d, e, f);
    PrecedesIsBefore(d, b, f, g);
    PrecedesIsBefore(c, b, e, g);
    BeforeIsTransitive(Row(c, e), Row(d, f), Row(b, g));
  }

  // ---- The ranking is sorted ------------------------------------------------------------------

  lemma {:induction false} InsertIsSorted(order: seq<nat>, i: nat, cs: seq<Candidate>, q: Request)
    requires i < |cs| && Positions(order, cs) && Sorted(order, cs, q)
    ensures Sorted(Insert(order, i, cs, q), cs, q)
  {
    hide Better;
    if order != [] {
      var head, rest := order[0], order[1..];
      BetterIsStrictTotal(cs[i], cs[head], q);
      BetterIsStrictTotal(cs[head], cs[head], q);
      if Better(cs[i], cs[head], q) {
        forall k | 0 <= k < |order| ensures !Better(cs[order[k]], cs[i], q) {
          if Better(cs[order[k]], cs[i], q) {
            BetterIsTransitive(cs[order[k]], cs[i], cs[head], q);
          }
        }
      } else {
        InsertIsSorted(rest, i, cs, q);
        var r := Insert(rest, i, cs, q);
        forall k | 0 <= k < |r| ensures !Better(cs[r[k]], cs[head], q) {
          assert r[k] in multiset(r);
          assert r[k] == i || r[k] in multiset(rest);
        }
      }
    }
  }

  lemma {:induction false} RankingIsSorted(idx: seq<nat>, cs: seq<Candidate>, q: Request)
    requires Positions(idx, cs)
    ensures Sorted(RankFeasible(idx, cs, q), cs, q)
  {
    if idx != [] {
      var n := |idx| - 1;
      RankingIsSorted(idx[..n], cs, q);
      InsertIsSorted(RankFeasible(idx[..n], cs, q), idx[n], cs, q);
    }
  }

  /** The selected position is unbeaten among those that were ranked. */
  lemma FirstIsBest(idx: seq<nat>, cs: seq<Candidate>, q: Request)
    requires Positions(idx, cs) && idx != []
    ensures var order := RankFeasible(idx, cs, q);
            && order[0] in idx
            && forall i :: i in idx ==> !Better(cs[i], cs[order[0]], q)
  {
    var order := RankFeasible(idx, cs, q);
    RankingIsSorted(idx, cs, q);
    hide RankFeasible;
    hide Better;
    assert order[0] in multiset(order);
    forall i | i in idx ensures !Better(cs[i], cs[order[0]], q) {
      assert i in multiset(order);
      var k :| 0 <= k < |order| && order[k] == i;
      BetterIsStrictTotal(cs[i], cs[i], q);
    }
  }

  // ---- What the decision means ----------------------------------------------------------------

  /** `c` is among the candidates, and none that qualifies like it is better. */
  ghost predicate BestOf(c: Candidate, cs: seq<Candidate>, good: Candidate -> bool) {
    c in cs && good(c) && forall d :: d in cs && good(d) ==> !Before(EvidenceRow(d), EvidenceRow(c))
  }

  lemma WhereFinds(cs: seq<Candidate>, good: Candidate -> bool)
    ensures Where(cs, good) != [] <==> exists c :: c in cs && good(c)
  {
    var idx := Where(cs, good);
    hide Where;
    if c :| c in cs && good(c) {
      var i :| 0 <= i < |cs| && cs[i] == c;
      assert i in idx;
    }
    if idx != [] {
      assert idx[0] in idx;
      assert cs[idx[0]] in cs;
    }
  }

  lemma FirstIsBestOf(cs: seq<Candidate>, q: Request, good: Candidate -> bool)
    requires Where(cs, good) != []
    ensures BestOf(cs[RankFeasible(Where(cs, good), cs, q)[0]], cs, good)
  {
    var idx := Where(cs, good);
    FirstIsBest(idx, cs, q);
    hide Where;
    hide RankFeasible;
    hide Better;
    hide Before;
    hide EvidenceRow;
    var first := cs[RankFeasible(idx, cs, q)[0]];
    forall d | d in cs && good(d) ensures !Before(EvidenceRow(d), EvidenceRow(first)) {
      var i :| 0 <= i < |cs| && cs[i] == d;
      assert i in idx;
      BetterMeans(d, first, q);
    }
  }

  /** The four outcomes, each exactly when. */
  lemma OutcomeMeans(cs: seq<Candidate>, q: Request, ctx: Context, now: i64)
    ensures var d := Decide(cs, q, ctx, now);
            && (d.outcome.NoCandidates? <==> cs == [])
            && (d.outcome.PlanFound? <==> exists c :: c in cs && Eligible(c, q, ctx, now))
            && (d.Selects() <==> exists c :: c in cs && IsFeasible(c, q, ctx))
            && (d.outcome.NoDeadlineFeasiblePlan? <==> HardDeadline(q) && d.Selects() && !d.outcome.PlanFound?)
  {
    WhereFinds(cs, FeasibleUnder(q, ctx));
    WhereFinds(cs, EligibleUnder(q, ctx, now));
    hide Where;
    hide RankFeasible;
    hide IsFeasible;
    hide MeetsBounds;
  }

  /** A plan that is found is eligible, and no eligible candidate is better. */
  lemma WinnerIsBest(cs: seq<Candidate>, q: Request, ctx: Context, now: i64)
    requires Decide(cs, q, ctx, now).outcome.PlanFound?
    ensures BestOf(Selected(cs, q, ctx, now), cs, EligibleUnder(q, ctx, now))
  {
    hide Where;
    hide RankFeasible;
    hide BestOf;
    FirstIsBestOf(cs, q, EligibleUnder(q, ctx, now));
  }

  /** A fallback is the best of all feasible candidates, and none of them meets the bounds. */
  lemma FallbackIsBest(cs: seq<Candidate>, q: Request, ctx: Context, now: i64)
    requires Decide(cs, q, ctx, now).Selects() && !Decide(cs, q, ctx, now).outcome.PlanFound?
    ensures BestOf(Selected(cs, q, ctx, now), cs, FeasibleUnder(q, ctx))
    ensures forall c :: c in cs && IsFeasible(c, q, ctx) ==> !MeetsBounds(c, q, now)
  {
    WhereFinds(cs, EligibleUnder(q, ctx, now));
    hide Where;
    hide RankFeasible;
    hide BestOf;
    hide IsFeasible;
    hide MeetsBounds;
    FirstIsBestOf(cs, q, FeasibleUnder(q, ctx));
  }

  /** What a candidate says about the progress that it preserves. */
  function Preserves(c: Candidate): Option<u64> { if c.cost.Some? then c.cost.value.preservedProgress else None }

  /**
   Silence wins: the winner of PLAN_FOUND says how much progress it preserves only if every eligible
   candidate does; a single eligible candidate that does not say beats all that do.
   */
  lemma WinnerKnowsProgress(cs: seq<Candidate>, q: Request, ctx: Context, now: i64)
    requires Decide(cs, q, ctx, now).outcome.PlanFound?
    ensures Preserves(Selected(cs, q, ctx, now)).Some? <==>
              forall c :: c in cs && Eligible(c, q, ctx, now) ==> Preserves(c).Some?
  {
    var winner := Selected(cs, q, ctx, now);
    WinnerIsBest(cs, q, ctx, now);
    hide Decide;
    hide Selected;
    hide Eligible;
    hide Before;
    hide EvidenceRow;
    hide Preserves;
    forall c | c in cs && Eligible(c, q, ctx, now) ensures Preserves(c).Some? || Preserves(winner).None? {
      if Preserves(c).None? && Preserves(winner).Some? {
        SilenceComesFirst(c, winner);
      }
    }
  }

  lemma SilenceComesFirst(c: Candidate, d: Candidate)
    requires Preserves(c).None? && Preserves(d).Some?
    ensures Before(EvidenceRow(c), EvidenceRow(d))
  {
  }

  /** Two candidates that are both best are the same one, when identities are distinct. */
  lemma BestIsUnique(c: Candidate, d: Candidate, cs: seq<Candidate>, q: Request, good: Candidate -> bool)
    requires Distinct(cs) && BestOf(c, cs, good) && BestOf(d, cs, good)
    ensures c == d
  {
    hide Better;
    hide Before;
    hide EvidenceRow;
    BetterMeans(c, d, q);
    BetterMeans(d, c, q);
    BetterIsStrictTotal(c, d, q);
    var i :| 0 <= i < |cs| && cs[i] == c;
    var j :| 0 <= j < |cs| && cs[j] == d;
  }

  lemma SameMembers(cs: seq<Candidate>, ds: seq<Candidate>)
    requires multiset(cs) == multiset(ds)
    ensures forall c :: c in cs <==> c in ds
    ensures |cs| == |ds|
  {
    assert forall c :: c in cs <==> c in multiset(cs);
    assert forall c :: c in ds <==> c in multiset(ds);
    assert |multiset(cs)| == |cs| && |multiset(ds)| == |ds|;
  }

  /**
   Selection does not depend on the order in which candidates are given: a permutation of candidates
   with distinct (id, generation, strategy) has the same outcome and the same selected candidate.
   */
  lemma OrderIndependence(cs: seq<Candidate>, ds: seq<Candidate>, q: Request, ctx: Context, now: i64)
    requires Distinct(cs) && multiset(cs) == multiset(ds)
    ensures var d, e := Decide(cs, q, ctx, now), Decide(ds, q, ctx, now);
            && d.outcome == e.outcome
            && d.Selects() == e.Selects()
            && (d.Selects() ==> Selected(cs, q, ctx, now) == Selected(ds, q, ctx, now))
  {
    SameMembers(cs, ds);
    OutcomeMeans(cs, q, ctx, now);
    OutcomeMeans(ds, q, ctx, now);
    OutcomeIsDetermined(cs, q, ctx, now);
    OutcomeIsDetermined(ds, q, ctx, now);
    var d, e := Decide(cs, q, ctx, now), Decide(ds, q, ctx, now);
    hide Decide;
    hide Selected;
    hide Eligible;
    hide IsFeasible;
    assert d.outcome == e.outcome && d.Selects() == e.Selects();
    if d.Selects() {
      SameSelection(cs, ds, q, ctx, now);
    }
  }

  lemma BestOfSame(c: Candidate, cs: seq<Candidate>, ds: seq<Candidate>, good: Candidate -> bool)
    requires multiset(cs) == multiset(ds) && BestOf(c, ds, good)
    ensures BestOf(c, cs, good)
  {
    SameMembers(cs, ds);
    hide Before;
    hide EvidenceRow;
  }

  lemma SameSelection(cs: seq<Candidate>, ds: seq<Candidate>, q: Request, ctx: Context, now: i64)
    requires Distinct(cs) && multiset(cs) == multiset(ds)
    requires Decide(cs, q, ctx, now).Selects() && Decide(ds, q, ctx, now).Selects()
    requires Decide(cs, q, ctx, now).outcome == Decide(ds, q, ctx, now).outcome
    ensures Selected(cs, q, ctx, now) == Selected(ds, q, ctx, now)
  {
    var c, d := Selected(cs, q, ctx, now), Selected(ds, q, ctx, now);
    hide Decide;
    hide Selected;
    hide Distinct;
    hide BestOf;
    hide EligibleUnder;
    hide FeasibleUnder;
    if Decide(cs, q, ctx, now).outcome.PlanFound? {
      WinnerIsBest(cs, q, ctx, now);
      WinnerIsBest(ds, q, ctx, now);
      BestOfSame(d, cs, ds, EligibleUnder(q, ctx, now));
      BestIsUnique(c, d, cs, q, EligibleUnder(q, ctx, now));
    } else {
      FallbackIsBest(cs, q, ctx, now);
      FallbackIsBest(ds, q, ctx, now);
      BestOfSame(d, cs, ds, FeasibleUnder(q, ctx));
      BestIsUnique(c, d, cs, q, FeasibleUnder(q, ctx));
    }
  }

  lemma OutcomeIsDetermined(cs: seq<Candidate>, q: Request, ctx: Context, now: i64)
    ensures var d := Decide(cs, q, ctx, now);
            d.outcome.NoValidPlan? <==>
              !d.outcome.NoCandidates? && !d.outcome.PlanFound? && !d.outcome.NoDeadlineFeasiblePlan?
  {
  }

  /** `feasible_rank` numbers the ranked candidates 1..k, in their order, and is zero for the others. */
  lemma {:induction false} RanksAreBijective(ranking: seq<nat>)
    requires forall i, j :: 0 <= i < j < |ranking| ==> ranking[i] != ranking[j]
    ensures forall k :: 0 <= k < |ranking| ==> RankOf(ranking, ranking[k]) == k + 1
    ensures forall i :: i !in ranking ==> RankOf(ranking, i) == 0
  {
    if ranking != [] {
      RanksAreBijective(ranking[1..]);
      forall k | 0 <= k < |ranking| ensures RankOf(ranking, ranking[k]) == k + 1 {
        if k > 0 {
          assert ranking[1..][k - 1] == ranking[k];
        }
      }
    }
  }

  lemma {:induction false} WhereIncreases(cs: seq<Candidate>, good: Candidate -> bool)
    ensures forall i, j :: 0 <= i < j < |Where(cs, good)| ==> Where(cs, good)[i] < Where(cs, good)[j]
  {
    if cs != [] {
      WhereIncreases(cs[..|cs| - 1], good);
      var idx := Where(cs[..|cs| - 1], good);
      assert forall i :: 0 <= i < |idx| ==> idx[i] in idx;
    }
  }

  lemma PermutationOfDistinct(idx: seq<nat>, order: seq<nat>)
    requires forall i, j :: 0 <= i < j < |idx| ==> idx[i] != idx[j]
    requires multiset(order) == multiset(idx)
    ensures forall i, j :: 0 <= i < j < |order| ==> order[i] != order[j]
  {
    forall i, j | 0 <= i < j < |order| ensures order[i] != order[j] {
      if order[i] == order[j] {
        var x := order[i];
        TwiceInMultiset(order, i, j);
        OnceInMultiset(idx, x);
      }
    }
  }

  lemma TwiceInMultiset(s: seq<nat>, i: nat, j: nat)
    requires i < j < |s| && s[i] == s[j]
    ensures multiset(s)[s[i]] >= 2
  {
    assert s == s[..j] + [s[j]] + s[j + 1..];
    assert s[..j][i] == s[i];
    assert multiset(s) == multiset(s[..j]) + multiset{s[j]} + multiset(s[j + 1..]);
  }

  lemma {:induction false} OnceInMultiset(s: seq<nat>, x: nat)
    requires forall i, j :: 0 <= i < j < |s| ==> s[i] != s[j]
    ensures multiset(s)[x] <= 1
  {
    if s != [] {
      var n := |s| - 1;
      assert s == s[..n] + [s[n]];
      OnceInMultiset(s[..n], x);
      if s[n] == x {
        assert forall i :: 0 <= i < n ==> s[..n][i] != x;
        assert x !in s[..n];
      }
    }
  }

  /** The ranked positions are exactly the qualifying ones, each once, better ones first. */
  lemma RankingIsBijection(cs: seq<Candidate>, q: Request, ctx: Context, now: i64)
    ensures var d := Decide(cs, q, ctx, now);
            && (forall i :: i in d.ranking <==>
                  0 <= i < |cs| && (if d.outcome.PlanFound? then Eligible(cs[i], q, ctx, now) else IsFeasible(cs[i], q, ctx)))
            && (forall k :: 0 <= k < |d.ranking| ==> RankOf(d.ranking, d.ranking[k]) == k + 1)
            && (forall i :: i !in d.ranking ==> RankOf(d.ranking, i) == 0)
            && Sorted(d.ranking, cs, q)
  {
    var d := Decide(cs, q, ctx, now);
    var good := if d.outcome.PlanFound? then EligibleUnder(q, ctx, now) else FeasibleUnder(q, ctx);
    assert forall c :: good(c) <==> if d.outcome.PlanFound? then Eligible(c, q, ctx, now) else IsFeasible(c, q, ctx);
    hide *;
    DecisionRanks(cs, q, ctx, now);
    RankingOfWhere(cs, q, good);
  }

  /** Whatever the outcome, the ranking is that of the eligible candidates, or of the feasible ones without any. */
  lemma DecisionRanks(cs: seq<Candidate>, q: Request, ctx: Context, now: i64)
    ensures var d := Decide(cs, q, ctx, now);
            var good := if d.outcome.PlanFound? then EligibleUnder(q, ctx, now) else FeasibleUnder(q, ctx);
            d.ranking == RankFeasible(Where(cs, good), cs, q)
  {
    hide IsFeasible;
    hide Eligible;
  }

  lemma RankingOfWhere(cs: seq<Candidate>, q: Request, good: Candidate -> bool)
    ensures var ranking := RankFeasible(Where(cs, good), cs, q);
            && (forall i :: i in ranking <==> 0 <= i < |cs| && good(cs[i]))
            && (forall k :: 0 <= k < |ranking| ==> RankOf(ranking, ranking[k]) == k + 1)
            && (forall i :: i !in ranking ==> RankOf(ranking, i) == 0)
            && Sorted(ranking, cs, q)
  {
    var idx := Where(cs, good);
    var ranking := RankFeasible(idx, cs, q);
    WhereIncreases(cs, good);
    RankingIsSorted(idx, cs, q);
    hide RankFeasible;
    hide Where;
    hide Sorted;
    PermutationOfDistinct(idx, ranking);
    RanksAreBijective(ranking);
    assert forall i :: i in ranking <==> i in multiset(ranking);
    assert forall i :: i in idx <==> i in multiset(idx);
  }

  // ---- Adding a candidate ---------------------------------------------------------------------

  lemma WhereOfAdded(cs: seq<Candidate>, c: Candidate, good: Candidate -> bool)
    ensures Where(cs + [c], good) == Where(cs, good) + (if good(c) then [|cs|] else [])
  {
    assert (cs + [c])[..|cs|] == cs;
  }

  lemma {:induction false} InsertKeepsOldList(order: seq<nat>, i: nat, cs: seq<Candidate>, c: Candidate, q: Request)
    requires i < |cs| && Positions(order, cs)
    ensures Insert(order, i, cs + [c], q) == Insert(order, i, cs, q)
  {
    if order != [] {
      InsertKeepsOldList(order[1..], i, cs, c, q);
    }
  }

  lemma {:induction false} RankingKeepsOldList(idx: seq<nat>, cs: seq<Candidate>, c: Candidate, q: Request)
    requires Positions(idx, cs)
    ensures RankFeasible(idx, cs + [c], q) == RankFeasible(idx, cs, q)
  {
    if idx != [] {
      var n := |idx| - 1;
      RankingKeepsOldList(idx[..n], cs, c, q);
      InsertKeepsOldList(RankFeasible(idx[..n], cs, q), idx[n], cs, c, q);
    }
  }

  lemma AppendingACandidate(cs: seq<Candidate>, c: Candidate, q: Request, ctx: Context, now: i64)
    requires Decide(cs, q, ctx, now).outcome.PlanFound?
    ensures Decide(cs + [c], q, ctx, now).outcome.PlanFound?
    ensures var old_ := Selected(cs, q, ctx, now);
            Selected(cs + [c], q, ctx, now) == if Eligible(c, q, ctx, now) && Better(c, old_, q) then c else old_
  {
    hide Where;
    hide RankFeasible;
    hide Better;
    hide Eligible;
    FirstOfAdded(cs, c, q, EligibleUnder(q, ctx, now));
  }

  /**
   One more candidate, anywhere in a list that has a plan and in any order: an ineligible one changes
   nothing; an eligible one is selected if it is better than the old selection, which otherwise stays.
   */
  lemma AddingACandidate(cs: seq<Candidate>, c: Candidate, ds: seq<Candidate>, q: Request, ctx: Context, now: i64)
    requires Decide(cs, q, ctx, now).outcome.PlanFound?
    requires Distinct(cs + [c]) && multiset(ds) == multiset(cs + [c])
    ensures Decide(ds, q, ctx, now).outcome.PlanFound?
    ensures var old_ := Selected(cs, q, ctx, now);
            Selected(ds, q, ctx, now) == if Eligible(c, q, ctx, now) && Better(c, old_, q) then c else old_
  {
    hide *;
    AppendingACandidate(cs, c, q, ctx, now);
    OrderIndependence(cs + [c], ds, q, ctx, now);
  }

  lemma FirstOfAdded(cs: seq<Candidate>, c: Candidate, q: Request, good: Candidate -> bool)
    requires Where(cs, good) != []
    ensures Where(cs + [c], good) != []
    ensures var first := cs[RankFeasible(Where(cs, good), cs, q)[0]];
            (cs + [c])[RankFeasible(Where(cs + [c], good), cs + [c], q)[0]] == if good(c) && Better(c, first, q) then c else first
  {
    var idx := Where(cs, good);
    WhereOfAdded(cs, c, good);
    RankingKeepsOldList(idx, cs, c, q);
    hide Where;
    hide Better;
    if good(c) {
      var more := idx + [|cs|];
      assert more[..|idx|] == idx;
      assert RankFeasible(more, cs + [c], q) == Insert(RankFeasible(idx, cs + [c], q), |cs|, cs + [c], q);
    } else {
      assert idx + [] == idx;
    }
  }
}
