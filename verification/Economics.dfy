/** Deadline arithmetic, economics and the candidate order of src/economics.cpp. */
module Economics {
  import opened Integers
  import opened Domain
  import opened Evidence

  // ---- Saturating arithmetic ------------------------------------------------------------------

  function SatAdd(a: i64, b: i64): i64 {
    if b > 0 && a > INT64_MAX - b then INT64_MAX
    else if b < 0 && a < INT64_MIN - b then INT64_MIN
    else a + b
  }

  function SatSub(a: i64, b: i64): i64 {
    if b > 0 && a < INT64_MIN + b then INT64_MIN
    else if b < 0 && a > INT64_MAX + b then INT64_MAX
    else a - b
  }

  function Min(a: int, b: int): int { if a <= b then a else b }

  function Max(a: int, b: int): int { if a <= b then b else a }

  function Clamp(x: int): i64 {
    if x < INT64_MIN then INT64_MIN else if x > INT64_MAX then INT64_MAX else x
  }

  lemma SaturationClamps(a: i64, b: i64)
    ensures SatAdd(a, b) == Clamp(a + b) && SatSub(a, b) == Clamp(a - b)
  {
  }

  // ---- Deadlines ------------------------------------------------------------------------------

  datatype Deadline = Deadline(deadline: Option<i64>, completion: Option<i64>, slack: Option<i64>, outcome: DeadlineOutcome)

  /** The deadline a request imposes: its absolute one, else `now` plus its allowance (not saturated). */
  function EffectiveDeadline(q: Request, now: i64): Option<i64> {
    if q.recoveryDeadline.Some? then q.recoveryDeadline
    else if q.maxDuration.Some? then Some(WrapAdd(now, q.maxDuration.value))
    else None
  }

  function ExpectedTime(c: Candidate): Option<i64> { if c.cost.Some? then c.cost.value.expectedTime else None }

  function EvaluateDeadline(c: Candidate, q: Request, now: i64): Deadline {
    var deadline := EffectiveDeadline(q, now);
    if deadline.None? then Deadline(None, None, None, NoDeadline)
    else if ExpectedTime(c).None? then Deadline(deadline, None, None, NotKnown)
    else
      var expected := if ExpectedTime(c).value < 0 then 0 else ExpectedTime(c).value;
      var completion := SatAdd(now, expected);
      var limit := if deadline.value < now then now else deadline.value;
      var slack := SatSub(limit, completion);
      Deadline(deadline, Some(completion), Some(slack), if slack >= 0 then HardFeasible else Violated)
  }

  /** The allowance does not overflow the clock: otherwise the sum is undefined in the original. */
  predicate AllowanceFits(q: Request, now: i64) {
    q.recoveryDeadline.None? && q.maxDuration.Some? ==> INT64_MIN <= now + q.maxDuration.value <= INT64_MAX
  }

  /** The deadline that the request means, as an unbounded number. */
  function MeantDeadline(q: Request, now: i64): Option<int> {
    if q.recoveryDeadline.Some? then Some(q.recoveryDeadline.value)
    else if q.maxDuration.Some? then Some(now + q.maxDuration.value)
    else None
  }

  /** When the candidate completes: a negative duration counts as none, and time ends at INT64_MAX. */
  function Completion(now: int, expected: int): int { Min(now + Max(expected, 0), INT64_MAX) }

  /**
   Despite both saturations, HARD_FEASIBLE says what it should: a known completion no later than the
   deadline, where a deadline in the past counts as now.
   */
  lemma HardFeasibleMeans(c: Candidate, q: Request, now: i64)
    requires AllowanceFits(q, now)
    ensures EvaluateDeadline(c, q, now).outcome.HardFeasible? <==>
              && MeantDeadline(q, now).Some?
              && ExpectedTime(c).Some?
              && Completion(now, ExpectedTime(c).value) <= Max(MeantDeadline(q, now).value, now)
  {
    if q.recoveryDeadline.None? && q.maxDuration.Some? {
      WrapAddFits(now, q.maxDuration.value);
    }
  }

  /** The numbers beside the outcome: when the candidate completes, and by how much it makes the deadline. */
  lemma SlackMeans(c: Candidate, q: Request, now: i64)
    requires AllowanceFits(q, now) && MeantDeadline(q, now).Some? && ExpectedTime(c).Some?
    ensures var completion := Completion(now, ExpectedTime(c).value);
            var slack := Max(MeantDeadline(q, now).value, now) - completion;
            && EvaluateDeadline(c, q, now).completion == Some(completion)
            && EvaluateDeadline(c, q, now).slack == Some(if slack > INT64_MAX then INT64_MAX else slack)
            && (EvaluateDeadline(c, q, now).outcome.Violated? <==> slack < 0)
  {
    if q.recoveryDeadline.None? {
      WrapAddFits(now, q.maxDuration.value);
    }
  }

  /** The deadline that counts, and which of the four outcomes it comes to. */
  lemma DeadlineMeans(c: Candidate, q: Request, now: i64)
    requires AllowanceFits(q, now)
    ensures var e := EvaluateDeadline(c, q, now);
            var meant := MeantDeadline(q, now);
            && (e.deadline.Some? <==> meant.Some?) && (meant.Some? ==> e.deadline.value == meant.value)
            && (e.outcome.NoDeadline? <==> meant.None?)
            && (e.outcome.NotKnown? <==> meant.Some? && ExpectedTime(c).None?)
            && (e.completion.Some? <==> meant.Some? && ExpectedTime(c).Some?)
            && (e.slack.Some? <==> meant.Some? && ExpectedTime(c).Some?)
            && (e.outcome.HardFeasible? || e.outcome.Violated? <==> e.slack.Some?)
  {
    if q.recoveryDeadline.None? && q.maxDuration.Some? {
      WrapAddFits(now, q.maxDuration.value);
    }
  }

  lemma WrapAddFits(a: i64, b: i64)
    requires INT64_MIN <= a + b <= INT64_MAX
    ensures WrapAdd(a, b) == a + b
  {
  }

  // ---- Economics ------------------------------------------------------------------------------

  datatype Economy = Economy(
    preserved: Option<u64>, lost: Option<u64>, time: Option<i64>, units: Option<u64>, risk: byte, confidence: u16,
    withinTolerance: bool)

  function ComputeEconomics(c: Candidate, q: Request): Economy {
    var preserved := if c.cost.Some? then c.cost.value.preservedProgress else None;
    var lost := if c.cost.Some? then c.cost.value.lostProgress else None;
    Economy(preserved, lost, ExpectedTime(c),
            if c.cost.Some? then c.cost.value.costUnits else None,
            if c.cost.Some? then c.cost.value.risk else 0,
            if c.cost.Some? && c.authority.Some? then c.authority.value.confidence else 0,
            if q.maxLoss.Some? && lost.Some? then lost.value <= q.maxLoss.value else true)
  }

  /** Only a loss that is known to exceed the bound is held against a candidate: an unknown loss is tolerated. */
  lemma ToleranceMeans(c: Candidate, q: Request)
    ensures !ComputeEconomics(c, q).withinTolerance <==>
              && q.maxLoss.Some? && c.cost.Some? && c.cost.value.lostProgress.Some?
              && c.cost.value.lostProgress.value > q.maxLoss.value
  {
  }

  // ---- The order ------------------------------------------------------------------------------

  /** Negative when `a` is better, positive when `b` is; unknown is worse than every known value. */
  function LowerIsBetter(a: Option<int>, b: Option<int>): int {
    match (a, b)
    case (Some(x), Some(y)) => if x < y then -1 else if y < x then 1 else 0
    case (Some(_), None) => -1
    case (None, Some(_)) => 1
    case (None, None) => 0
  }

  function HigherIsBetter(a: Option<int>, b: Option<int>): int { LowerIsBetter(b, a) }

  function Compare(a: int, b: int): int { if a < b then -1 else if b < a then 1 else 0 }

  function CandidatePrecedes(l: Candidate, r: Candidate, le: Economy, re: Economy): bool {
    var preserved := HigherIsBetter(le.preserved, re.preserved);
    if preserved != 0 then preserved < 0 else
    var lost := LowerIsBetter(le.lost, re.lost);
    if lost != 0 then lost < 0 else
    var time := LowerIsBetter(le.time, re.time);
    if time != 0 then time < 0 else
    var units := LowerIsBetter(le.units, re.units);
    if units != 0 then units < 0 else
    var risk := Compare(le.risk, re.risk);
    if risk != 0 then risk < 0 else
    var confidence := Compare(le.confidence, re.confidence);
    if confidence != 0 then confidence > 0 else
    if l.candidateId != r.candidateId then l.candidateId < r.candidateId
    else if l.generation != r.generation then l.generation < r.generation
    else if l.strategy != r.strategy then l.strategy < r.strategy
    else false
  }

  // The same order, once more: lexicographic on a row of numbers, smaller is better.

  /** Known before unknown, then by value. */
  function Ascending(o: Option<int>): (r: seq<int>)
    ensures |r| == 2
  {
    if o.Some? then [0, o.value] else [1, 0]
  }

  /** Swapping the arguments of the comparison swaps the treatment of unknown too: it comes first here. */
  function Descending(o: Option<int>): (r: seq<int>)
    ensures |r| == 2
  {
    if o.Some? then [1, -o.value] else [0, 0]
  }

  function Tail(c: Candidate, e: Economy): (r: seq<int>)
    ensures |r| == 5
  {
    var confidence: int := e.confidence;
    [e.risk, -confidence, c.candidateId, c.generation, c.strategy]
  }

  function Row(c: Candidate, e: Economy): (r: seq<int>)
    ensures |r| == 13
  {
    Descending(e.preserved) + Ascending(e.lost) + Ascending(e.time) + Ascending(e.units) + Tail(c, e)
  }

  predicate Before(a: seq<int>, b: seq<int>)
    requires |a| == |b|
  {
    a != [] && (a[0] < b[0] || (a[0] == b[0] && Before(a[1..], b[1..])))
  }

  lemma {:induction false} BeforeIsStrict(a: seq<int>, b: seq<int>)
    requires |a| == |b|
    ensures !Before(a, a)
    ensures Before(a, b) ==> !Before(b, a)
    ensures Before(a, b) || Before(b, a) || a == b
  {
    if a != [] {
      BeforeIsStrict(a[1..], b[1..]);
      assert a == [a[0]] + a[1..] && b == [b[0]] + b[1..];
    }
  }

  lemma {:induction false} BeforeIsTransitive(a: seq<int>, b: seq<int>, c: seq<int>)
    requires |a| == |b| == |c| && Before(a, b) && Before(b, c)
    ensures Before(a, c)
  {
    if a[0] == b[0] == c[0] {
      BeforeIsTransitive(a[1..], b[1..], c[1..]);
    }
  }

  lemma {:induction false} BeforeSplits(a: seq<int>, b: seq<int>, c: seq<int>, d: seq<int>)
    requires |a| == |c| && |b| == |d|
    ensures Before(a + b, c + d) <==> Before(a, c) || (a == c && Before(b, d))
  {
    if a == [] {
      assert a + b == b && c + d == d;
    } else {
      assert (a + b)[1..] == a[1..] + b && (c + d)[1..] == c[1..] + d;
      BeforeSplits(a[1..], b, c[1..], d);
      assert a == [a[0]] + a[1..] && c == [c[0]] + c[1..];
    }
  }

  lemma BeforeOfPairs(x: seq<int>, y: seq<int>)
    requires |x| == |y| == 2
    ensures Before(x, y) <==> x[0] < y[0] || (x[0] == y[0] && x[1] < y[1])
  {
    assert x[1..][1..] == [] && y[1..][1..] == [];
    assert Before(x[1..], y[1..]) <==> x[1] < y[1];
  }

  lemma AscendingCompares(a: Option<int>, b: Option<int>)
    ensures Before(Ascending(a), Ascending(b)) <==> LowerIsBetter(a, b) < 0
    ensures Ascending(a) == Ascending(b) <==> LowerIsBetter(a, b) == 0
    ensures LowerIsBetter(a, b) == 0 <==> a == b
  {
    var x, y := Ascending(a), Ascending(b);
    BeforeOfPairs(x, y);
    assert x == y ==> x[0] == y[0] && x[1] == y[1];
  }

  lemma DescendingCompares(a: Option<int>, b: Option<int>)
    ensures Before(Descending(a), Descending(b)) <==> HigherIsBetter(a, b) < 0
    ensures Descending(a) == Descending(b) <==> HigherIsBetter(a, b) == 0
    ensures HigherIsBetter(a, b) == 0 <==> a == b
  {
    var x, y := Descending(a), Descending(b);
    BeforeOfPairs(x, y);
    assert x == y ==> x[0] == y[0] && x[1] == y[1];
  }

  lemma TailCompares(l: Candidate, r: Candidate, le: Economy, re: Economy)
    ensures Before(Tail(l, le), Tail(r, re)) <==>
              || le.risk < re.risk
              || (le.risk == re.risk
                  && (|| le.confidence > re.confidence
                      || (le.confidence == re.confidence
                          && (|| l.candidateId < r.candidateId
                              || (l.candidateId == r.candidateId
                                  && (|| l.generation < r.generation
                                      || (l.generation == r.generation && l.strategy < r.strategy)))))))
  {
    var a, b := Tail(l, le), Tail(r, re);
    BeforeSplits([a[0]], a[1..], [b[0]], b[1..]);
    BeforeSplits([a[1]], a[2..], [b[1]], b[2..]);
    BeforeSplits([a[2]], a[3..], [b[2]], b[3..]);
    BeforeSplits([a[3]], a[4..], [b[3]], b[4..]);
    assert a[1..] == [a[1]] + a[2..] && b[1..] == [b[1]] + b[2..];
    assert a[2..] == [a[2]] + a[3..] && b[2..] == [b[2]] + b[3..];
    assert a[3..] == [a[3]] + a[4..] && b[3..] == [b[3]] + b[4..];
    assert a == [a[0]] + a[1..] && b == [b[0]] + b[1..];
    assert forall x: int, y: int :: Before([x], [y]) <==> x < y;
    assert a[4..] == [l.strategy] && b[4..] == [r.strategy];
  }

  /** The cascade of comparisons is the lexicographic order on the rows. */
  lemma PrecedesIsBefore(l: Candidate, r: Candidate, le: Economy, re: Economy)
    ensures CandidatePrecedes(l, r, le, re) <==> Before(Row(l, le), Row(r, re))
  {
    RowNests(l, le);
    RowNests(r, re);
    DescendingCompares(le.preserved, re.preserved);
    AscendingCompares(le.lost, re.lost);
    AscendingCompares(le.time, re.time);
    AscendingCompares(le.units, re.units);
    TailCompares(l, r, le, re);
    hide Before;
    hide Tail;
    hide Row;
    hide Ascending;
    hide Descending;
    var a4, b4 := Tail(l, le), Tail(r, re);
    var a3, b3 := Ascending(le.units) + a4, Ascending(re.units) + b4;
    var a2, b2 := Ascending(le.time) + a3, Ascending(re.time) + b3;
    var a1, b1 := Ascending(le.lost) + a2, Ascending(re.lost) + b2;
    BeforeSplits(Descending(le.preserved), a1, Descending(re.preserved), b1);
    BeforeSplits(Ascending(le.lost), a2, Ascending(re.lost), b2);
    BeforeSplits(Ascending(le.time), a3, Ascending(re.time), b3);
    BeforeSplits(Ascending(le.units), a4, Ascending(re.units), b4);
  }

  lemma RowNests(c: Candidate, e: Economy)
    ensures Row(c, e) ==
              Descending(e.preserved) + (Ascending(e.lost) + (Ascending(e.time) + (Ascending(e.units) + Tail(c, e))))
  {
    hide Tail;
    hide Ascending;
    hide Descending;
  }

  /**
   Preserved progress is the first objective, and there an unknown value beats every known one, although
   src/economics.cpp (line 26) calls unknown the worst: a candidate that says nothing about the progress
   it preserves precedes every candidate that does.
   */
  lemma UnknownPreservedProgressWins(l: Candidate, r: Candidate, le: Economy, re: Economy)
    requires le.preserved.None? && re.preserved.Some?
    ensures CandidatePrecedes(l, r, le, re) && !CandidatePrecedes(r, l, re, le)
  {
  }

  /** For the objectives where lower is better unknown is the worst, when everything before is equal. */
  lemma UnknownLosesElsewhere(l: Candidate, r: Candidate, le: Economy, re: Economy)
    requires le.preserved == re.preserved
    requires
      || (le.lost.Some? && re.lost.None?)
      || (le.lost == re.lost && le.time.Some? && re.time.None?)
      || (le.lost == re.lost && le.time == re.time && le.units.Some? && re.units.None?)
    ensures CandidatePrecedes(l, r, le, re) && !CandidatePrecedes(r, l, re, le)
  {
  }
}
