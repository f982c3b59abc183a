/** What `apply_snapshot` makes of the bytes of `encode_snapshot`, whole or truncated. */
module SnapshotProofs {
  import opened Integers
  import opened Domain
  import opened Codec
  import opened KeyOrder
  import opened Snapshot

  // ---- Fields ---------------------------------------------------------------------------------

  lemma EnumerationsRoundTrip(s: Life, o: Outcome)
    requires s.Unlisted? ==> s.code > 11
    requires o.OtherOutcome? ==> o.code > 4
    ensures LifeOf(LifeByte(s)) == s && OutcomeOf(OutcomeByte(o)) == o
  {
  }

  lemma OptionI64Taken(c: Cursor, o: Option<i64>, rest: Tokens, missing: seq<byte>)
    requires Tracks(c, OptionI64(o, rest), missing)
    ensures Took(c, ReadOptionI64(c), o, rest, missing)
  {
    hide ReadU8;
    hide ReadI64;
    hide Encode;
    match o
    case None =>
      U8Taken(c, 0, rest, missing);
    case Some(x) =>
      U8Taken(c, 1, Then(I64(x), rest), missing);
      I64Taken(ReadU8(c).at, x, rest, missing);
  }

  lemma OptionU64Taken(c: Cursor, o: Option<u64>, rest: Tokens, missing: seq<byte>)
    requires Tracks(c, OptionU64(o, rest), missing)
    ensures Took(c, ReadOptionU64(c), o, rest, missing)
  {
    hide ReadU8;
    hide ReadU64;
    hide Encode;
    match o
    case None =>
      U8Taken(c, 0, rest, missing);
    case Some(x) =>
      U8Taken(c, 1, Then(U64(x), rest), missing);
      U64Taken(ReadU8(c).at, x, rest, missing);
  }

  lemma CountedU8sTaken(c: Cursor, xs: Vec<byte>, rest: Tokens, missing: seq<byte>)
    requires Tracks(c, CountedU8s(xs, rest), missing)
    ensures Took(c, ReadCountedU8s(c), xs, rest, missing)
  {
    hide ReadU32;
    hide ReadU8s;
    hide Encode;
    U32Taken(c, |xs|, U8s(xs, rest), missing);
    U8sTaken(ReadU32(c).at, xs, rest, missing);
  }

  lemma CountedStrsTaken(c: Cursor, xs: Vec<text>, rest: Tokens, missing: seq<byte>)
    requires Tracks(c, CountedStrs(xs, rest), missing)
    ensures Reads(c, ReadCountedStrs(c), CutAll(xs), AllShort(xs), rest, missing)
  {
    hide ReadU32;
    hide ReadStrs;
    hide Encode;
    hide AllShort;
    hide CutAll;
    U32Taken(c, |xs|, Strs(xs, rest), missing);
    StrsTaken(ReadU32(c).at, xs, rest, missing);
  }

  // ---- Records --------------------------------------------------------------------------------

  lemma RequestHeadTaken(c: Cursor, q: Request, rest: Tokens, missing: seq<byte>)
    requires Tracks(c, U64s(RequestIds(q), Then(Str(q.reason), OptionI64(q.recoveryDeadline, OptionI64(q.maxDuration,
                         OptionU64(q.maxLoss, rest))))), missing)
    ensures var ids := ReadU64s(c, 6);
            var reason := ReadStr(ids.at);
            var deadline := ReadOptionI64(reason.at);
            var duration := ReadOptionI64(deadline.at);
            var loss := ReadOptionU64(duration.at);
            && Tracks(loss.at, rest, missing)
            && (!loss.at.failed ==> ids.value == RequestIds(q) && reason.value == CutAtNul(q.reason)
                                    && deadline.value == q.recoveryDeadline && duration.value == q.maxDuration
                                    && loss.value == q.maxLoss)
            && (missing == [] ==> loss.at.failed == (c.failed || !ShortString(q.reason)))
  {
    hide Encode;
    hide Tracks;
    hide OptionI64;
    hide OptionU64;
    hide U64s;
    hide ReadU64s;
    hide ReadStr;
    hide ReadOptionI64;
    hide ReadOptionU64;
    hide CutAtNul;
    hide ShortString;
    var t4 := OptionU64(q.maxLoss, rest);
    var t3 := OptionI64(q.maxDuration, t4);
    var t2 := OptionI64(q.recoveryDeadline, t3);
    U64sTaken(c, RequestIds(q), Then(Str(q.reason), t2), missing);
    var c1 := ReadU64s(c, 6).at;
    StrTaken(c1, q.reason, t2, missing);
    var c2 := ReadStr(c1).at;
    OptionI64Taken(c2, q.recoveryDeadline, t3, missing);
    var c3 := ReadOptionI64(c2).at;
    OptionI64Taken(c3, q.maxDuration, t4, missing);
    OptionU64Taken(ReadOptionI64(c3).at, q.maxLoss, rest, missing);
  }

  lemma RequestMiddleTaken(c: Cursor, q: Request, rest: Tokens, missing: seq<byte>)
    requires Tracks(c, CountedU8s(q.preferred, CountedU8s(q.forbidden,
                         U64s(RequestAuthority(q), Then(I64(q.requestedAt), rest)))), missing)
    ensures var preferred := ReadCountedU8s(c);
            var forbidden := ReadCountedU8s(preferred.at);
            var auth := ReadU64s(forbidden.at, 3);
            var requestedAt := ReadI64(auth.at);
            && Tracks(requestedAt.at, rest, missing)
            && (!requestedAt.at.failed ==> preferred.value == q.preferred && forbidden.value == q.forbidden
                                           && auth.value == RequestAuthority(q) && requestedAt.value == q.requestedAt)
            && (missing == [] ==> requestedAt.at.failed == c.failed)
  {
    hide Encode;
    hide Tracks;
    hide CountedU8s;
    hide U64s;
    hide ReadU64s;
    hide ReadI64;
    hide ReadCountedU8s;
    var t3 := Then(I64(q.requestedAt), rest);
    var t2 := U64s(RequestAuthority(q), t3);
    CountedU8sTaken(c, q.preferred, CountedU8s(q.forbidden, t2), missing);
    var c1 := ReadCountedU8s(c).at;
    CountedU8sTaken(c1, q.forbidden, t2, missing);
    var c2 := ReadCountedU8s(c1).at;
    U64sTaken(c2, RequestAuthority(q), t3, missing);
    I64Taken(ReadU64s(c2, 3).at, q.requestedAt, rest, missing);
  }

  lemma RequestTailTaken(c: Cursor, q: Request, rest: Tokens, missing: seq<byte>)
    requires Tracks(c, CountedStrs(q.stateRequirements, CountedStrs(q.placementConstraints,
                         CountedStrs(q.compatibilityRequirements, rest))), missing)
    ensures var states := ReadCountedStrs(c);
            var places := ReadCountedStrs(states.at);
            var compats := ReadCountedStrs(places.at);
            && Tracks(compats.at, rest, missing)
            && (!compats.at.failed ==> states.value == CutAll(q.stateRequirements)
                                       && places.value == CutAll(q.placementConstraints)
                                       && compats.value == CutAll(q.compatibilityRequirements))
            && (missing == [] ==>
                  compats.at.failed == (c.failed || !(AllShort(q.stateRequirements) && AllShort(q.placementConstraints)
                                                      && AllShort(q.compatibilityRequirements))))
  {
    hide Encode;
    hide Tracks;
    hide CountedStrs;
    hide ReadCountedStrs;
    hide AllShort;
    hide CutAll;
    var t2 := CountedStrs(q.compatibilityRequirements, rest);
    CountedStrsTaken(c, q.stateRequirements, CountedStrs(q.placementConstraints, t2), missing);
    var c1 := ReadCountedStrs(c).at;
    CountedStrsTaken(c1, q.placementConstraints, t2, missing);
    CountedStrsTaken(ReadCountedStrs(c1).at, q.compatibilityRequirements, rest, missing);
  }

  lemma RequestTaken(c: Cursor, q: Request, rest: Tokens, missing: seq<byte>)
    requires Tracks(c, RequestTokens(q, rest), missing)
    ensures Reads(c, ReadRequest(c), DurableRequest(q), ShortRequest(q), rest, missing)
  {
    hide Encode;
    hide Tracks;
    hide CountedStrs;
    hide CountedU8s;
    hide OptionI64;
    hide OptionU64;
    hide U64s;
    hide ReadU64s;
    hide ReadStr;
    hide ReadI64;
    hide ReadOptionI64;
    hide ReadOptionU64;
    hide ReadCountedU8s;
    hide ReadCountedStrs;
    hide AllShort;
    hide CutAll;
    hide CutAtNul;
    hide ShortString;
    var t2 := CountedStrs(q.stateRequirements, CountedStrs(q.placementConstraints,
                CountedStrs(q.compatibilityRequirements, rest)));
    var t1 := CountedU8s(q.preferred, CountedU8s(q.forbidden, U64s(RequestAuthority(q), Then(I64(q.requestedAt), t2))));
    RequestHeadTaken(c, q, t1, missing);
    var c1 := ReadOptionU64(ReadOptionI64(ReadOptionI64(ReadStr(ReadU64s(c, 6).at).at).at).at).at;
    RequestMiddleTaken(c1, q, t2, missing);
    var c2 := ReadI64(ReadU64s(ReadCountedU8s(ReadCountedU8s(c1).at).at, 3).at).at;
    RequestTailTaken(c2, q, rest, missing);
  }

  function StatusOf(p: Plan): Status {
    Status(p.life, p.outcome, p.published, p.createdAt, p.updatedAt, p.lastAttempt)
  }

  lemma StatusTaken(c: Cursor, p: Plan, rest: Tokens, missing: seq<byte>)
    requires Canonical(p)
    requires Tracks(c, StatusTokens(p, rest), missing)
    ensures Took(c, ReadStatus(c), StatusOf(p), rest, missing)
  {
    EnumerationsRoundTrip(p.life, p.outcome);
    hide LifeOf;
    hide LifeByte;
    hide OutcomeOf;
    hide OutcomeByte;
    hide Encode;
    hide Tracks;
    hide ReadU8;
    hide ReadI64;
    hide ReadU64;
    var t5 := Then(U64(p.lastAttempt), rest);
    var t4 := Then(I64(p.updatedAt), t5);
    var t3 := Then(I64(p.createdAt), t4);
    var t2 := Then(U8(if p.published then 1 else 0), t3);
    var t1 := Then(U8(OutcomeByte(p.outcome)), t2);
    U8Taken(c, LifeByte(p.life), t1, missing);
    var c1 := ReadU8(c).at;
    U8Taken(c1, OutcomeByte(p.outcome), t2, missing);
    var c2 := ReadU8(c1).at;
    U8Taken(c2, if p.published then 1 else 0, t3, missing);
    var c3 := ReadU8(c2).at;
    I64Taken(c3, p.createdAt, t4, missing);
    var c4 := ReadI64(c3).at;
    I64Taken(c4, p.updatedAt, t5, missing);
    U64Taken(ReadI64(c4).at, p.lastAttempt, rest, missing);
  }

  /** The identifying part of a plan: three runs of identities around the strategy. */
  lemma PlanHeadTaken(c: Cursor, p: Plan, rest: Tokens, missing: seq<byte>)
    requires Tracks(c, U64s(PlanIds(p), Then(U8(p.strategy), U64s(PlanTarget(p), U64s(AuthorityFields(p.authority), rest)))), missing)
    ensures var ids := ReadU64s(c, 4);
            var strategy := ReadU8(ids.at);
            var t := ReadU64s(strategy.at, 9);
            var a := ReadU64s(t.at, 13);
            && Tracks(a.at, rest, missing)
            && (!a.at.failed ==> ids.value == PlanIds(p) && strategy.value == p.strategy && t.value == PlanTarget(p)
                                 && a.value == AuthorityFields(p.authority))
            && (missing == [] ==> a.at.failed == c.failed)
  {
    hide Encode;
    hide Tracks;
    hide U64s;
    hide ReadU64s;
    hide ReadU8;
    var t3 := U64s(AuthorityFields(p.authority), rest);
    var t2 := U64s(PlanTarget(p), t3);
    U64sTaken(c, PlanIds(p), Then(U8(p.strategy), t2), missing);
    var c1 := ReadU64s(c, 4).at;
    U8Taken(c1, p.strategy, t2, missing);
    var c2 := ReadU8(c1).at;
    U64sTaken(c2, PlanTarget(p), t3, missing);
    U64sTaken(ReadU64s(c2, 9).at, AuthorityFields(p.authority), rest, missing);
  }

  lemma PlanTailTaken(c: Cursor, p: Plan, rest: Tokens, missing: seq<byte>)
    requires Canonical(p)
    requires Tracks(c, StatusTokens(p, Then(Str(p.payload), Then(Str(p.digest), rest))), missing)
    ensures var s := ReadStatus(c);
            var payload := ReadStr(s.at);
            var digest := ReadStr(payload.at);
            && Tracks(digest.at, rest, missing)
            && (!digest.at.failed ==> s.value == StatusOf(p) && payload.value == CutAtNul(p.payload)
                                      && digest.value == CutAtNul(p.digest))
            && (missing == [] ==> digest.at.failed == (c.failed || !ShortPlan(p)))
  {
    hide Encode;
    hide Tracks;
    hide StatusTokens;
    hide ReadStatus;
    hide ReadStr;
    hide CutAtNul;
    hide ShortString;
    hide Canonical;
    var t6 := Then(Str(p.digest), rest);
    StatusTaken(c, p, Then(Str(p.payload), t6), missing);
    var c5 := ReadStatus(c).at;
    StrTaken(c5, p.payload, t6, missing);
    StrTaken(ReadStr(c5).at, p.digest, rest, missing);
  }

  lemma PlanTaken(c: Cursor, p: Plan, rest: Tokens, missing: seq<byte>)
    requires Canonical(p)
    requires Tracks(c, PlanTokens(p, rest), missing)
    ensures Reads(c, ReadPlan(c), DurablePlan(p), ShortPlan(p), rest, missing)
  {
    hide Encode;
    hide Tracks;
    hide StatusTokens;
    hide U64s;
    hide ReadU64s;
    hide ReadU8;
    hide ReadStatus;
    hide ReadStr;
    hide CutAtNul;
    hide ShortPlan;
    hide Canonical;
    PlanHeadTaken(c, p, StatusTokens(p, Then(Str(p.payload), Then(Str(p.digest), rest))), missing);
    var a := ReadU64s(ReadU64s(ReadU8(ReadU64s(c, 4).at).at, 9).at, 13);
    PlanTailTaken(a.at, p, rest, missing);
  }

  // ---- Loops ----------------------------------------------------------------------------------

  function RequestKey(q: Request): u64 { q.requestId }

  function PlanKey(p: Plan): u64 { p.planId }

  lemma {:induction false} WorkersTaken(c: Cursor, boots: map<u64, u64>, ks: seq<u64>, into: map<u64, u64>, rest: Tokens, missing: seq<byte>)
    requires forall k :: k in ks ==> k in boots
    requires Tracks(c, WorkerTokens(boots, ks, rest), missing)
    ensures var r := ReadWorkers(c, |ks|, into);
            && Tracks(r.at, rest, missing)
            && (!r.at.failed ==> forall k :: k in r.value <==> k in into || k in ks)
            && (!r.at.failed ==> forall k :: k in r.value ==> r.value[k] == if k in ks then boots[k] else into[k])
            && (missing == [] ==> r.at.failed == c.failed)
    decreases |ks|
  {
    hide Encode;
    hide Tracks;
    hide ReadU64;
    if ks != [] {
      var rest' := WorkerTokens(boots, ks[1..], rest);
      U64Taken(c, ks[0], Then(U64(boots[ks[0]]), rest'), missing);
      var w := ReadU64(c);
      U64Taken(w.at, boots[ks[0]], rest', missing);
      var b := ReadU64(w.at);
      assert forall k :: k in ks <==> k == ks[0] || k in ks[1..];
      WorkersTaken(b.at, boots, ks[1..], into[w.value := b.value], rest, missing);
      assert ReadWorkers(c, |ks|, into) == ReadWorkers(b.at, |ks| - 1, into[w.value := b.value]);
    }
  }

  predicate ShortRequests(qs: seq<Request>) { qs == [] || (ShortRequest(qs[0]) && ShortRequests(qs[1..])) }

  predicate ShortPlans(ps: seq<Plan>) { ps == [] || (ShortPlan(ps[0]) && ShortPlans(ps[1..])) }

  lemma {:induction false} RequestsTaken(c: Cursor, qs: seq<Request>, into: map<u64, Request>, rest: Tokens, missing: seq<byte>)
    requires Tracks(c, RequestsTokens(qs, rest), missing)
    ensures var r := ReadRequests(c, |qs|, into);
            && (r.done ==> Tracks(r.at, rest, missing))
            && (r.done && !r.at.failed ==> r.result == InsertAll(into, qs, RequestKey, DurableRequest))
            && (missing == [] && !c.failed ==> (r.done <==> ShortRequests(qs)) && (r.done ==> !r.at.failed))
    decreases |qs|
  {
    hide Encode;
    hide Tracks;
    hide ReadRequest;
    hide ShortRequest;
    hide RequestTokens;
    if qs != [] {
      RequestTaken(c, qs[0], RequestsTokens(qs[1..], rest), missing);
      var q := ReadRequest(c);
      if !q.at.failed {
        RequestsTaken(q.at, qs[1..], into[q.value.requestId := q.value], rest, missing);
      }
    }
  }

  lemma {:induction false} PlansTaken(c: Cursor, ps: seq<Plan>, into: map<u64, Plan>, rest: Tokens, missing: seq<byte>)
    requires forall p :: p in ps ==> Canonical(p)
    requires Tracks(c, PlansTokens(ps, rest), missing)
    ensures var r := ReadPlans(c, |ps|, into);
            && (r.done ==> Tracks(r.at, rest, missing))
            && (r.done && !r.at.failed ==> r.result == InsertAll(into, ps, PlanKey, DurablePlan))
            && (missing == [] && !c.failed ==> (r.done <==> ShortPlans(ps)) && (r.done ==> !r.at.failed))
    decreases |ps|
  {
    hide Encode;
    hide Tracks;
    hide ReadPlan;
    hide ShortPlan;
    hide PlanTokens;
    hide Canonical;
    if ps != [] {
      PlanTaken(c, ps[0], PlansTokens(ps[1..], rest), missing);
      var p := ReadPlan(c);
      if !p.at.failed {
        PlansTaken(p.at, ps[1..], into[p.value.planId := p.value], rest, missing);
      }
    }
  }

  lemma {:induction false} ShortRequestsAre(qs: seq<Request>)
    ensures ShortRequests(qs) <==> forall q :: q in qs ==> ShortRequest(q)
  {
    hide ShortRequest;
    if qs != [] {
      ShortRequestsAre(qs[1..]);
      assert forall q :: q in qs <==> q == qs[0] || q in qs[1..];
    }
  }

  lemma {:induction false} ShortPlansAre(ps: seq<Plan>)
    ensures ShortPlans(ps) <==> forall p :: p in ps ==> ShortPlan(p)
  {
    hide ShortPlan;
    if ps != [] {
      ShortPlansAre(ps[1..]);
      assert forall p :: p in ps <==> p == ps[0] || p in ps[1..];
    }
  }

  lemma AllEntries<V>(m: map<u64, V>, good: V -> bool)
    ensures (forall v :: v in Entries(m) ==> good(v)) <==> (forall k :: k in m ==> good(m[k]))
  {
    var ks, vs := SortedKeys(m.Keys), Entries(m);
    assert |vs| == |ks| && forall i :: 0 <= i < |ks| ==> vs[i] == m[ks[i]];
    assert forall k :: k in ks <==> k in m;
    hide SortedKeys;
    hide Entries;
    if forall v :: v in vs ==> good(v) {
      forall k | k in m ensures good(m[k]) {
        var i :| 0 <= i < |ks| && ks[i] == k;
        assert vs[i] in vs;
      }
    }
    if forall k :: k in m ==> good(m[k]) {
      forall v | v in vs ensures good(v) {
        var i :| 0 <= i < |vs| && vs[i] == v;
        assert ks[i] in ks;
      }
    }
  }

  // ---- The snapshot of a planner state --------------------------------------------------------

  /** Every entry is stored under its own id, and its enumerations name themselves. */
  predicate WellKeyed(s: State) {
    && (forall k :: k in s.requests ==> s.requests[k].requestId == k)
    && (forall k :: k in s.plans ==> s.plans[k].planId == k && Canonical(s.plans[k]))
  }

  /** The four counts of a snapshot fit 32 bits. */
  predicate Countable(s: State) {
    |s.ctx.workerBoots| < TWO_32 && |s.requests| < TWO_32 && |s.plans| < TWO_32 && |s.history| < TWO_32
  }

  predicate RequestsAreShort(s: State) { forall k :: k in s.requests ==> ShortRequest(s.requests[k]) }

  predicate PlansAreShort(s: State) { forall k :: k in s.plans ==> ShortPlan(s.plans[k]) }

  function DurableRequests(s: State): map<u64, Request> {
    map k | k in s.requests :: DurableRequest(s.requests[k])
  }

  function DurablePlans(s: State): map<u64, Plan> {
    map k | k in s.plans :: DurablePlan(s.plans[k])
  }

  lemma SpellsNothing(c: Cursor, missing: seq<byte>)
    requires Tracks(c, End, missing) && !c.failed
    ensures missing == []
  {
    assert |c.data[c.pos..] + missing| == 0;
  }

  lemma CountFits(n: nat)
    requires n < TWO_32
    ensures Count(n) == n
  {
  }

  lemma HistoryApplied(t: State, s: State, c: Cursor, missing: seq<byte>)
    requires Countable(s)
    requires Tracks(c, HistoryTokens(s), missing)
    ensures var r := ApplyHistory(t, c);
            && (r.ok ==> missing == [] && r.state.history == CutAll(s.history))
            && (missing == [] && !c.failed ==> (r.ok <==> AllShort(s.history)))
  {
    hide Encode;
    hide Tracks;
    hide Count;
    hide ReadU32;
    hide ReadStrs;
    hide AllShort;
    hide CutAll;
    CountFits(|s.history|);
    U32Taken(c, |s.history|, Strs(s.history, End), missing);
    var n := ReadU32(c);
    StrsTaken(n.at, s.history, End, missing);
    var xs := ReadStrs(n.at, n.value);
    if !xs.at.failed {
      SpellsNothing(xs.at, missing);
    }
  }

  lemma PlanEntries(s: State)
    requires WellKeyed(s)
    ensures forall p :: p in Entries(s.plans) ==> Canonical(p)
    ensures PlansAreShort(s) <==> ShortPlans(Entries(s.plans))
  {
    hide Canonical;
    hide ShortPlan;
    hide Entries;
    AllEntries(s.plans, Canonical);
    AllEntries(s.plans, ShortPlan);
    ShortPlansAre(Entries(s.plans));
  }

  lemma PlansRebuilt(s: State)
    requires WellKeyed(s)
    ensures InsertAll(map[], Entries(s.plans), PlanKey, DurablePlan) == DurablePlans(s)
  {
    hide DurablePlan;
    hide Entries;
    hide InsertAll;
    RebuiltFromEntries(s.plans, PlanKey, DurablePlan);
  }

  lemma RequestEntries(s: State)
    ensures RequestsAreShort(s) <==> ShortRequests(Entries(s.requests))
  {
    hide ShortRequest;
    hide Entries;
    AllEntries(s.requests, ShortRequest);
    ShortRequestsAre(Entries(s.requests));
  }

  lemma RequestsRebuilt(s: State)
    requires WellKeyed(s)
    ensures InsertAll(map[], Entries(s.requests), RequestKey, DurableRequest) == DurableRequests(s)
  {
    hide DurableRequest;
    hide Entries;
    hide InsertAll;
    RebuiltFromEntries(s.requests, RequestKey, DurableRequest);
  }

  lemma PlansApplied(t: State, s: State, c: Cursor, missing: seq<byte>)
    requires Countable(s) && WellKeyed(s)
    requires Tracks(c, PlanSection(s), missing)
    ensures var r := ApplyPlans(t, c);
            && (r.ok ==> missing == [] && r.state.plans == DurablePlans(s) && r.state.history == CutAll(s.history))
            && (missing == [] && !c.failed ==> (r.ok <==> PlansAreShort(s) && AllShort(s.history)))
            && (missing == [] && !c.failed && PlansAreShort(s) ==> r.state.plans == DurablePlans(s))
  {
    PlanEntries(s);
    PlansRebuilt(s);
    hide Encode;
    hide Tracks;
    hide Follows;
    hide Count;
    hide ReadU32;
    hide ReadPlans;
    hide PlansTokens;
    hide HistoryTokens;
    hide ApplyHistory;
    hide InsertAll;
    hide Entries;
    hide AllShort;
    hide CutAll;
    hide WellKeyed;
    hide PlansAreShort;
    hide ShortPlans;
    hide DurablePlans;
    hide DurablePlan;
    hide Canonical;
    var ps := Entries(s.plans);
    CountFits(|s.plans|);
    U32Taken(c, |s.plans|, PlansTokens(ps, HistoryTokens(s)), missing);
    var n := ReadU32(c);
    if n.at.failed {
      PlansFail(t, c);
    } else {
      PlansTaken(n.at, ps, map[], HistoryTokens(s), missing);
      var r := ReadPlans(n.at, n.value, map[]);
      if r.done {
        HistoryFrame(t.(plans := r.result), r.at);
        HistoryApplied(t.(plans := r.result), s, r.at, missing);
      }
    }
  }

  lemma RequestsApplied(t: State, s: State, c: Cursor, missing: seq<byte>)
    requires Countable(s) && WellKeyed(s)
    requires Tracks(c, RequestSection(s), missing)
    ensures var r := ApplyRequests(t, c);
            && (r.ok ==>
                  && missing == []
                  && r.state.requests == DurableRequests(s)
                  && r.state.plans == DurablePlans(s)
                  && r.state.history == CutAll(s.history))
            && (missing == [] && !c.failed ==>
                  (r.ok <==> RequestsAreShort(s) && PlansAreShort(s) && AllShort(s.history)))
            && (missing == [] && !c.failed && !RequestsAreShort(s) ==> r.state.plans == t.plans && r.state.history == t.history)
            && (missing == [] && !c.failed && RequestsAreShort(s) && PlansAreShort(s) ==>
                  r.state.requests == DurableRequests(s) && r.state.plans == DurablePlans(s))
  {
    RequestEntries(s);
    RequestsRebuilt(s);
    hide Encode;
    hide Tracks;
    hide Follows;
    hide Count;
    hide ReadU32;
    hide ReadRequests;
    hide RequestsTokens;
    hide PlanSection;
    hide ApplyPlans;
    hide InsertAll;
    hide Entries;
    hide AllShort;
    hide CutAll;
    hide WellKeyed;
    hide RequestsAreShort;
    hide PlansAreShort;
    hide ShortRequests;
    hide DurableRequest;
    hide DurableRequests;
    hide DurablePlans;
    var qs := Entries(s.requests);
    CountFits(|s.requests|);
    U32Taken(c, |s.requests|, RequestsTokens(qs, PlanSection(s)), missing);
    var n := ReadU32(c);
    if n.at.failed {
      RequestsFail(t, c);
    } else {
      RequestsTaken(n.at, qs, map[], PlanSection(s), missing);
      var r := ReadRequests(n.at, n.value, map[]);
      if r.done {
        PlansFrame(t.(requests := r.result), r.at);
        PlansApplied(t.(requests := r.result), s, r.at, missing);
      }
    }
  }

  lemma WorkersRead(s: State, c: Cursor, missing: seq<byte>)
    requires Countable(s)
    requires Tracks(c, WorkerSection(s), missing)
    ensures var n := ReadU32(c);
            var ws := ReadWorkers(n.at, n.value, map[]);
            && (c.failed || n.at.failed ==> ws.at.failed)
            && Tracks(ws.at, RequestSection(s), missing)
            && (!ws.at.failed ==> ws.value == s.ctx.workerBoots)
            && (missing == [] ==> ws.at.failed == c.failed)
  {
    hide Encode;
    hide Tracks;
    hide Count;
    hide ReadU32;
    hide ReadWorkers;
    hide WorkerTokens;
    hide RequestSection;
    hide SortedKeys;
    var boots := s.ctx.workerBoots;
    CountFits(|boots|);
    U32Taken(c, |boots|, WorkerTokens(boots, SortedKeys(boots.Keys), RequestSection(s)), missing);
    var n := ReadU32(c);
    if n.at.failed {
      SpellsAnything(ReadWorkers(n.at, n.value, map[]).at, RequestSection(s), missing);
    } else {
      WorkerLoopTaken(n.at, boots, RequestSection(s), missing);
    }
  }

  lemma WorkerLoopTaken(c: Cursor, boots: map<u64, u64>, rest: Tokens, missing: seq<byte>)
    requires Tracks(c, WorkerTokens(boots, SortedKeys(boots.Keys), rest), missing)
    ensures Took(c, ReadWorkers(c, |boots|, map[]), boots, rest, missing)
  {
    hide Encode;
    hide Tracks;
    hide WorkerTokens;
    var ks := SortedKeys(boots.Keys);
    assert |ks| == |boots| && forall k :: k in ks <==> k in boots;
    hide SortedKeys;
    WorkersTaken(c, boots, ks, map[], rest, missing);
    var ws := ReadWorkers(c, |boots|, map[]);
    hide ReadWorkers;
    if !ws.at.failed {
      assert ws.value == boots;
    }
  }

  lemma SpellsAnything(c: Cursor, ts: Tokens, missing: seq<byte>)
    requires c.failed
    ensures Tracks(c, ts, missing)
  {
  }

  lemma WorkersApplied(t: State, s: State, c: Cursor, missing: seq<byte>)
    requires Countable(s) && WellKeyed(s)
    requires Tracks(c, WorkerSection(s), missing)
    ensures var r := ApplyWorkers(t, c);
            && (r.ok ==>
                  && missing == []
                  && r.state.ctx == t.ctx.(workerBoots := s.ctx.workerBoots, aliveWorkers := {})
                  && r.state.requests == DurableRequests(s)
                  && r.state.plans == DurablePlans(s)
                  && r.state.history == CutAll(s.history))
            && (missing == [] && !c.failed ==>
                  && (r.ok <==> RequestsAreShort(s) && PlansAreShort(s) && AllShort(s.history))
                  && r.state.ctx == t.ctx.(workerBoots := s.ctx.workerBoots, aliveWorkers := {}))
            && (missing == [] && !c.failed && !RequestsAreShort(s) ==> r.state.plans == t.plans && r.state.history == t.history)
            && (missing == [] && !c.failed && RequestsAreShort(s) && PlansAreShort(s) ==>
                  r.state.requests == DurableRequests(s) && r.state.plans == DurablePlans(s))
  {
    hide Encode;
    hide Tracks;
    hide Follows;
    hide Count;
    hide ReadU32;
    hide ReadWorkers;
    hide WorkerSection;
    hide RequestSection;
    hide ApplyRequests;
    hide AllShort;
    hide CutAll;
    hide WellKeyed;
    hide RequestsAreShort;
    hide PlansAreShort;
    hide DurableRequests;
    hide DurablePlans;
    WorkersRead(s, c, missing);
    var n := ReadU32(c);
    var ws := ReadWorkers(n.at, n.value, map[]);
    var t' := t.(ctx := t.ctx.(workerBoots := ws.value, aliveWorkers := {}));
    RequestsFrame(t', ws.at);
    RequestsApplied(t', s, ws.at, missing);
    if ws.at.failed {
      NoNumberAgain(ws.at);
      RequestsFail(t', ws.at);
    }
  }

  // ---- Failure is sticky ----------------------------------------------------------------------

  lemma HistoryFrame(t: State, c: Cursor)
    ensures ApplyHistory(t, c).state == t.(history := ApplyHistory(t, c).state.history)
  {
  }

  lemma PlansFrame(t: State, c: Cursor)
    ensures var s := ApplyPlans(t, c).state; s == t.(plans := s.plans, history := s.history)
  {
    hide ReadU32;
    hide ReadPlans;
    hide ReadStrs;
  }

  lemma RequestsFrame(t: State, c: Cursor)
    ensures var s := ApplyRequests(t, c).state; s == t.(requests := s.requests, plans := s.plans, history := s.history)
  {
    hide ReadU32;
    hide ReadRequests;
    hide ApplyPlans;
    var n := ReadU32(c);
    var qs := ReadRequests(n.at, n.value, map[]);
    PlansFrame(t.(requests := qs.result), qs.at);
  }

  lemma RequestsFromLoop(t: State, c: Cursor)
    ensures ApplyRequests(t, c).state.requests == ReadRequests(ReadU32(c).at, ReadU32(c).value, map[]).result
  {
    hide ReadU32;
    hide ReadRequests;
    hide ApplyPlans;
    var qs := ReadRequests(ReadU32(c).at, ReadU32(c).value, map[]);
    PlansFrame(t.(requests := qs.result), qs.at);
  }

  lemma NoNumber(c: Cursor)
    requires ReadU32(c).at.failed
    ensures ReadU32(c).value == 0
  {
  }

  lemma NoNumberAgain(c: Cursor)
    requires c.failed
    ensures ReadU32(c).at.failed && ReadU32(c).value == 0
  {
  }

  lemma HistoryFails(t: State, c: Cursor)
    requires c.failed
    ensures !ApplyHistory(t, c).ok && ApplyHistory(t, c).state == t.(history := [])
  {
    hide ReadU32;
    NoNumberAgain(c);
  }

  lemma PlansFail(t: State, c: Cursor)
    requires ReadU32(c).at.failed
    ensures !ApplyPlans(t, c).ok && ApplyPlans(t, c).state == t.(plans := map[], history := [])
  {
    hide ReadU32;
    hide ApplyHistory;
    var n := ReadU32(c);
    NoNumber(c);
    assert ReadPlans(n.at, 0, map[]) == Loop(true, map[], n.at);
    hide ReadPlans;
    HistoryFails(t.(plans := map[]), n.at);
  }

  lemma RequestsFail(t: State, c: Cursor)
    requires ReadU32(c).at.failed
    ensures !ApplyRequests(t, c).ok
    ensures ApplyRequests(t, c).state == t.(requests := map[], plans := map[], history := [])
  {
    hide ReadU32;
    hide ApplyPlans;
    var n := ReadU32(c);
    NoNumber(c);
    assert ReadRequests(n.at, 0, map[]) == Loop(true, map[], n.at);
    hide ReadRequests;
    NoNumberAgain(n.at);
    PlansFail(t.(requests := map[]), n.at);
  }

  // ---- Theorems -------------------------------------------------------------------------------

  /** What the reader accepts: every string, cut at its first NUL, has at most 4096 characters. */
  predicate Persistable(s: State) { RequestsAreShort(s) && PlansAreShort(s) && AllShort(s.history) }

  /** `t` with the durable part of `s` in the place of its own. */
  function Restored(t: State, s: State, preserve: bool): State {
    t.(ctx := RestoredContext(t.ctx, s.ctx, preserve),
       requests := DurableRequests(s), plans := DurablePlans(s), history := CutAll(s.history))
  }

  function RestoredContext(t: Context, s: Context, preserve: bool): Context {
    WithGenerations(t, Generations(s), preserve).(workerBoots := s.workerBoots, aliveWorkers := {})
  }

  lemma GenerationsRead(s: State, bytes: seq<byte>, missing: seq<byte>)
    requires bytes + missing == EncodeSnapshot(s)
    ensures var version := ReadU32(RawCursor(bytes, 0, false));
            var g := ReadU64s(version.at, 7);
            && (version.value != FORMAT_VERSION ==> version.at.failed)
            && (version.at.failed ==> missing != [])
            && Tracks(g.at, WorkerSection(s), missing)
            && (!g.at.failed ==> g.value == Generations(s.ctx))
            && (missing == [] ==> !g.at.failed)
  {
    hide WorkerSection;
    hide ReadU32;
    hide ReadU64s;
    hide U64s;
    var c := RawCursor(bytes, 0, false);
    assert c.data[0..] == bytes;
    assert Tracks(c, SnapshotTokens(s), missing);
    hide Encode;
    hide Tracks;
    U32Taken(c, FORMAT_VERSION, U64s(Generations(s.ctx), WorkerSection(s)), missing);
    U64sTaken(ReadU32(c).at, Generations(s.ctx), WorkerSection(s), missing);
  }

  lemma SnapshotApplied(t: State, s: State, bytes: seq<byte>, missing: seq<byte>, preserve: bool)
    requires Countable(s) && WellKeyed(s)
    requires bytes + missing == EncodeSnapshot(s)
    ensures var r := ApplySnapshot(t, bytes, preserve);
            && (r.ok ==> missing == [] && r.state == Restored(t, s, preserve))
            && (missing == [] ==> (r.ok <==> Persistable(s)) && r.state.ctx == RestoredContext(t.ctx, s.ctx, preserve))
            && (missing == [] && !RequestsAreShort(s) ==> r.state.plans == t.plans && r.state.history == t.history)
            && (missing == [] && RequestsAreShort(s) && PlansAreShort(s) ==>
                  r.state.requests == DurableRequests(s) && r.state.plans == DurablePlans(s))
  {
    hide EncodeSnapshot;
    hide Tracks;
    hide ReadU32;
    hide ReadU64s;
    hide ApplyWorkers;
    hide WorkerSection;
    hide AllShort;
    hide CutAll;
    hide WellKeyed;
    hide RequestsAreShort;
    hide PlansAreShort;
    hide DurableRequests;
    hide DurablePlans;
    GenerationsRead(s, bytes, missing);
    var g := ReadU64s(ReadU32(RawCursor(bytes, 0, false)).at, 7);
    if !g.at.failed {
      var t' := t.(ctx := WithGenerations(t.ctx, g.value, preserve));
      WorkersApplied(t', s, g.at, missing);
      WorkersFrame(t', g.at);
    }
  }

  lemma WorkersFrame(t: State, c: Cursor)
    ensures var s := ApplyWorkers(t, c).state;
            s == t.(ctx := s.ctx, requests := s.requests, plans := s.plans, history := s.history)
  {
    hide ReadU32;
    hide ReadWorkers;
    hide ApplyRequests;
    var ws := ReadWorkers(ReadU32(c).at, ReadU32(c).value, map[]);
    RequestsFrame(t.(ctx := t.ctx.(workerBoots := ws.value, aliveWorkers := {})), ws.at);
  }

  /**
   Round trip. Applying an encoded snapshot succeeds exactly when every string is short enough once
   cut at its first NUL; it then restores every durable field, over any number of entries.
   */
  lemma SnapshotRoundTrip(t: State, s: State, preserve: bool)
    requires Countable(s) && WellKeyed(s)
    ensures ApplySnapshot(t, EncodeSnapshot(s), preserve).ok <==> Persistable(s)
    ensures Persistable(s) ==> ApplySnapshot(t, EncodeSnapshot(s), preserve).state == Restored(t, s, preserve)
  {
    assert EncodeSnapshot(s) + [] == EncodeSnapshot(s);
    hide EncodeSnapshot;
    hide Persistable;
    SnapshotApplied(t, s, EncodeSnapshot(s), [], preserve);
  }

  /**
   `r` is a context `t` after the snapshot of a context `s`, field by field: epoch and boot come from the snapshot
   unless they are to be preserved; which workers are alive, resources and tables never come from it.
   */
  predicate ContextLoaded(t: Context, s: Context, preserve: bool, r: Context) {
    && r.epoch == (if preserve then t.epoch else s.epoch)
    && r.plannerBoot == (if preserve then t.plannerBoot else s.plannerBoot)
    && r.workloadGeneration == s.workloadGeneration
    && r.policyGeneration == s.policyGeneration
    && r.compatibilityGeneration == s.compatibilityGeneration
    && r.resourceGeneration == s.resourceGeneration
    && r.topologyGeneration == s.topologyGeneration
    && r.workerBoots == s.workerBoots
    && r.aliveWorkers == {}
    && r.resources == t.resources
    && r.compatibilityTable == t.compatibilityTable
    && r.recomputeLineage == t.recomputeLineage
    && r.originalInputs == t.originalInputs
  }

  lemma RestoredContextIsLoaded(t: Context, s: Context, preserve: bool)
    ensures ContextLoaded(t, s, preserve, RestoredContext(t, s, preserve))
  {
  }

  /** What a snapshot makes of the context, whether or not the rest of it could be read. */
  lemma ContextRoundTrip(t: State, s: State, preserve: bool)
    requires Countable(s) && WellKeyed(s)
    ensures ContextLoaded(t.ctx, s.ctx, preserve, ApplySnapshot(t, EncodeSnapshot(s), preserve).state.ctx)
  {
    hide *;
    assert EncodeSnapshot(s) + [] == EncodeSnapshot(s);
    SnapshotApplied(t, s, EncodeSnapshot(s), [], preserve);
    RestoredContextIsLoaded(t.ctx, s.ctx, preserve);
  }

  /** No NUL anywhere in the strings of a request. */
  predicate NulFree(q: Request) {
    && 0 !in q.reason
    && (forall s :: s in q.stateRequirements ==> 0 !in s)
    && (forall s :: s in q.placementConstraints ==> 0 !in s)
    && (forall s :: s in q.compatibilityRequirements ==> 0 !in s)
  }

  /** Without NULs a snapshot changes nothing about a request. */
  lemma RequestPersists(q: Request)
    requires NulFree(q)
    ensures DurableRequest(q) == q
  {
    CutKeepsAll(q.stateRequirements);
    CutKeepsAll(q.placementConstraints);
    CutKeepsAll(q.compatibilityRequirements);
    assert CutAtNul(q.reason) == q.reason;
    hide CutAll;
  }

  lemma {:induction false} CutKeepsAll(xs: seq<text>)
    requires forall s :: s in xs ==> 0 !in s
    ensures CutAll(xs) == xs
  {
    if xs != [] {
      CutKeepsAll(xs[1..]);
      assert CutAtNul(xs[0]) == xs[0];
    }
  }

  /** No strict prefix of a snapshot is accepted, whatever state it is applied to. */
  lemma TruncatedSnapshotIsRejected(t: State, s: State, n: nat, preserve: bool)
    requires Countable(s) && WellKeyed(s) && n < |EncodeSnapshot(s)|
    ensures !ApplySnapshot(t, EncodeSnapshot(s)[..n], preserve).ok
  {
    var all := EncodeSnapshot(s);
    hide EncodeSnapshot;
    assert all[..n] + all[n..] == all;
    SnapshotApplied(t, s, all[..n], all[n..], preserve);
  }

  /**
   A snapshot of planner `s` applied to `s` itself never loses a plan, even when it is rejected because
   a request or the history holds a string that is too long.
   */
  lemma ReapplyingKeepsPlans(s: State, preserve: bool)
    requires Countable(s) && WellKeyed(s) && PlansAreShort(s)
    ensures var r := ApplySnapshot(s, EncodeSnapshot(s), preserve).state;
            && r.plans == (if RequestsAreShort(s) then DurablePlans(s) else s.plans)
            && r.ctx == RestoredContext(s.ctx, s.ctx, preserve)
  {
    assert EncodeSnapshot(s) + [] == EncodeSnapshot(s);
    hide EncodeSnapshot;
    SnapshotApplied(s, s, EncodeSnapshot(s), [], preserve);
  }

  /**
   On arbitrary bytes the cursor never passes the end, and success means that no read failed. Only the
   context, the requests, the plans and the history are touched.
   */
  lemma ArbitraryBytes(t: State, bytes: seq<byte>, preserve: bool)
    ensures var r := ApplySnapshot(t, bytes, preserve);
            && r.at.data == bytes && r.at.pos <= |bytes|
            && (r.ok ==> !r.at.failed)
            && r.state == t.(ctx := r.state.ctx, requests := r.state.requests, plans := r.state.plans, history := r.state.history)
  {
    hide ReadU32;
    hide ReadU64s;
    hide ApplyWorkers;
    var version := ReadU32(RawCursor(bytes, 0, false));
    var g := ReadU64s(version.at, 7);
    var t' := t.(ctx := WithGenerations(t.ctx, g.value, preserve));
    WorkersFrame(t', g.at);
    WorkersCursor(t', g.at);
  }

  lemma WorkersCursor(t: State, c: Cursor)
    ensures var r := ApplyWorkers(t, c); Follows(c, r.at) && (r.ok ==> !r.at.failed)
  {
    hide ReadU32;
    hide ReadWorkers;
    hide ReadRequests;
    hide ReadPlans;
    hide ReadStrs;
  }
}
