/** Requests and plans through the writer and reader objects: the bodies of the loops of a snapshot. */
module SnapshotStreams {
  import opened Integers
  import opened Domain
  import opened Codec
  import opened ByteStreams
  import opened Snapshot
  import opened KeyOrder

  // ---- Writing --------------------------------------------------------------------------------
  // Every method appends the bytes of its tokens: whatever is written next comes right after them.

  lemma Encodes(t: Token, rest: Tokens, before: seq<byte>)
    ensures before + Encode(Then(t, rest)) == before + TokenBytes(t) + Encode(rest)
  {
  }

  method PutU64s(w: ByteWriter, xs: seq<u64>, ghost rest: Tokens)
    modifies w
    ensures w.buf + Encode(rest) == old(w.buf) + Encode(U64s(xs, rest))
  {
    hide TokenBytes;
    for i := 0 to |xs|
      invariant w.buf + Encode(U64s(xs[i..], rest)) == old(w.buf) + Encode(U64s(xs, rest))
    {
      Encodes(U64(xs[i]), U64s(xs[i + 1..], rest), w.buf);
      assert xs[i..][1..] == xs[i + 1..];
      w.PutU64(xs[i]);
    }
  }

  method PutCountedU8s(w: ByteWriter, xs: Vec<byte>, ghost rest: Tokens)
    modifies w
    ensures w.buf + Encode(rest) == old(w.buf) + Encode(CountedU8s(xs, rest))
  {
    hide TokenBytes;
    Encodes(U32(|xs|), U8s(xs, rest), w.buf);
    w.PutU32(|xs|);
    for i := 0 to |xs|
      invariant w.buf + Encode(U8s(xs[i..], rest)) == old(w.buf) + Encode(CountedU8s(xs, rest))
    {
      Encodes(U8(xs[i]), U8s(xs[i + 1..], rest), w.buf);
      assert xs[i..][1..] == xs[i + 1..];
      w.PutU8(xs[i]);
    }
  }

  method PutStrings(w: ByteWriter, xs: seq<text>, ghost rest: Tokens)
    modifies w
    ensures w.buf + Encode(rest) == old(w.buf) + Encode(Strs(xs, rest))
  {
    hide TokenBytes;
    for i := 0 to |xs|
      invariant w.buf + Encode(Strs(xs[i..], rest)) == old(w.buf) + Encode(Strs(xs, rest))
    {
      Encodes(Str(xs[i]), Strs(xs[i + 1..], rest), w.buf);
      assert xs[i..][1..] == xs[i + 1..];
      w.PutString(xs[i]);
    }
  }

  method PutCountedStrings(w: ByteWriter, xs: Vec<text>, ghost rest: Tokens)
    modifies w
    ensures w.buf + Encode(rest) == old(w.buf) + Encode(CountedStrs(xs, rest))
  {
    hide TokenBytes;
    Encodes(U32(|xs|), Strs(xs, rest), w.buf);
    w.PutU32(|xs|);
    PutStrings(w, xs, rest);
  }

  method PutOptionI64(w: ByteWriter, o: Option<i64>, ghost rest: Tokens)
    modifies w
    ensures w.buf + Encode(rest) == old(w.buf) + Encode(OptionI64(o, rest))
  {
    hide TokenBytes;
    var flag := if o.Some? then 1 else 0;
    w.PutU8(flag);
    if o.Some? {
      Encodes(U8(1), Then(I64(o.value), rest), old(w.buf));
      Encodes(I64(o.value), rest, w.buf);
      w.PutI64(o.value);
    } else {
      Encodes(U8(0), rest, old(w.buf));
    }
  }

  method PutOptionU64(w: ByteWriter, o: Option<u64>, ghost rest: Tokens)
    modifies w
    ensures w.buf + Encode(rest) == old(w.buf) + Encode(OptionU64(o, rest))
  {
    hide TokenBytes;
    var flag := if o.Some? then 1 else 0;
    w.PutU8(flag);
    if o.Some? {
      Encodes(U8(1), Then(U64(o.value), rest), old(w.buf));
      Encodes(U64(o.value), rest, w.buf);
      w.PutU64(o.value);
    } else {
      Encodes(U8(0), rest, old(w.buf));
    }
  }

  method PutRequest(w: ByteWriter, q: Request, ghost rest: Tokens)
    modifies w
    ensures w.buf + Encode(rest) == old(w.buf) + Encode(RequestTokens(q, rest))
  {
    ghost var places := CountedStrs(q.placementConstraints, CountedStrs(q.compatibilityRequirements, rest));
    ghost var states := CountedStrs(q.stateRequirements, places);
    ghost var authority := U64s(RequestAuthority(q), Then(I64(q.requestedAt), states));
    ghost var forbidden := CountedU8s(q.forbidden, authority);
    ghost var preferred := CountedU8s(q.preferred, forbidden);
    ghost var loss := OptionU64(q.maxLoss, preferred);
    ghost var duration := OptionI64(q.maxDuration, loss);
    ghost var deadline := OptionI64(q.recoveryDeadline, duration);
    assert RequestTokens(q, rest) == U64s(RequestIds(q), Then(Str(q.reason), deadline));
    hide *;
    PutU64s(w, RequestIds(q), Then(Str(q.reason), deadline));
    Encodes(Str(q.reason), deadline, w.buf);
    w.PutString(q.reason);
    PutOptionI64(w, q.recoveryDeadline, duration);
    PutOptionI64(w, q.maxDuration, loss);
    PutOptionU64(w, q.maxLoss, preferred);
    PutCountedU8s(w, q.preferred, forbidden);
    PutCountedU8s(w, q.forbidden, authority);
    PutU64s(w, RequestAuthority(q), Then(I64(q.requestedAt), states));
    Encodes(I64(q.requestedAt), states, w.buf);
    w.PutI64(q.requestedAt);
    PutCountedStrings(w, q.stateRequirements, places);
    PutCountedStrings(w, q.placementConstraints, CountedStrs(q.compatibilityRequirements, rest));
    PutCountedStrings(w, q.compatibilityRequirements, rest);
  }

  method PutStatus(w: ByteWriter, p: Plan, ghost rest: Tokens)
    modifies w
    ensures w.buf + Encode(rest) == old(w.buf) + Encode(StatusTokens(p, rest))
  {
    ghost var attempt := Then(U64(p.lastAttempt), rest);
    ghost var updated := Then(I64(p.updatedAt), attempt);
    ghost var created := Then(I64(p.createdAt), updated);
    ghost var published := Then(U8(if p.published then 1 else 0), created);
    ghost var outcome := Then(U8(OutcomeByte(p.outcome)), published);
    assert StatusTokens(p, rest) == Then(U8(LifeByte(p.life)), outcome);
    hide *;
    Encodes(U8(LifeByte(p.life)), outcome, w.buf);
    w.PutU8(LifeByte(p.life));
    Encodes(U8(OutcomeByte(p.outcome)), published, w.buf);
    w.PutU8(OutcomeByte(p.outcome));
    Encodes(U8(if p.published then 1 else 0), created, w.buf);
    w.PutU8(if p.published then 1 else 0);
    Encodes(I64(p.createdAt), updated, w.buf);
    w.PutI64(p.createdAt);
    Encodes(I64(p.updatedAt), attempt, w.buf);
    w.PutI64(p.updatedAt);
    Encodes(U64(p.lastAttempt), rest, w.buf);
    w.PutU64(p.lastAttempt);
  }

  method PutPlan(w: ByteWriter, p: Plan, ghost rest: Tokens)
    modifies w
    ensures w.buf + Encode(rest) == old(w.buf) + Encode(PlanTokens(p, rest))
  {
    ghost var digest := Then(Str(p.digest), rest);
    ghost var status := StatusTokens(p, Then(Str(p.payload), digest));
    ghost var authority := U64s(AuthorityFields(p.authority), status);
    ghost var target := U64s(PlanTarget(p), authority);
    assert PlanTokens(p, rest) == U64s(PlanIds(p), Then(U8(p.strategy), target));
    hide *;
    PutU64s(w, PlanIds(p), Then(U8(p.strategy), target));
    Encodes(U8(p.strategy), target, w.buf);
    w.PutU8(p.strategy);
    PutU64s(w, PlanTarget(p), authority);
    PutU64s(w, AuthorityFields(p.authority), status);
    PutStatus(w, p, Then(Str(p.payload), digest));
    Encodes(Str(p.payload), digest, w.buf);
    w.PutString(p.payload);
    Encodes(Str(p.digest), rest, w.buf);
    w.PutString(p.digest);
  }

  method PutWorkers(w: ByteWriter, boots: map<u64, u64>, ghost rest: Tokens)
    modifies w
    ensures w.buf + Encode(rest) == old(w.buf) + Encode(WorkerTokens(boots, SortedKeys(boots.Keys), rest))
  {
    hide TokenBytes;
    var ks := KeysInOrder(boots.Keys);
    assert forall k :: k in ks ==> k in boots;
    hide SortedKeys;
    for i := 0 to |ks|
      invariant w.buf + Encode(WorkerTokens(boots, ks[i..], rest)) == old(w.buf) + Encode(WorkerTokens(boots, ks, rest))
    {
      ghost var after := WorkerTokens(boots, ks[i + 1..], rest);
      assert ks[i..][1..] == ks[i + 1..] && ks[i] in ks;
      Encodes(U64(ks[i]), Then(U64(boots[ks[i]]), after), w.buf);
      w.PutU64(ks[i]);
      Encodes(U64(boots[ks[i]]), after, w.buf);
      w.PutU64(boots[ks[i]]);
    }
  }

  lemma RequestsTokensEnd(qs: seq<Request>, rest: Tokens)
    ensures qs[0..] == qs && RequestsTokens(qs[|qs|..], rest) == rest
  {
  }

  lemma RequestsTokensUnfold(qs: seq<Request>, i: nat, rest: Tokens)
    requires i < |qs|
    ensures RequestsTokens(qs[i..], rest) == RequestTokens(qs[i], RequestsTokens(qs[i + 1..], rest))
  {
    hide RequestTokens;
    assert qs[i..][1..] == qs[i + 1..];
  }

  method PutRequests(w: ByteWriter, requests: map<u64, Request>, ghost rest: Tokens)
    modifies w
    ensures w.buf + Encode(rest) == old(w.buf) + Encode(RequestsTokens(Entries(requests), rest))
  {
    hide *;
    var ks := KeysInOrder(requests.Keys);
    ghost var qs := Entries(requests);
    EntriesAt(requests);
    RequestsTokensEnd(qs, rest);
    var i := 0;
    while i < |ks|
      invariant 0 <= i <= |ks|
      invariant w.buf + Encode(RequestsTokens(qs[i..], rest)) == old(w.buf) + Encode(RequestsTokens(qs, rest))
    {
      RequestsTokensUnfold(qs, i, rest);
      PutRequest(w, requests[ks[i]], RequestsTokens(qs[i + 1..], rest));
      i := i + 1;
    }
  }

  lemma PlansTokensEnd(ps: seq<Plan>, rest: Tokens)
    ensures ps[0..] == ps && PlansTokens(ps[|ps|..], rest) == rest
  {
  }

  lemma PlansTokensUnfold(ps: seq<Plan>, i: nat, rest: Tokens)
    requires i < |ps|
    ensures PlansTokens(ps[i..], rest) == PlanTokens(ps[i], PlansTokens(ps[i + 1..], rest))
  {
    hide PlanTokens;
    assert ps[i..][1..] == ps[i + 1..];
  }

  method PutPlans(w: ByteWriter, plans: map<u64, Plan>, ghost rest: Tokens)
    modifies w
    ensures w.buf + Encode(rest) == old(w.buf) + Encode(PlansTokens(Entries(plans), rest))
  {
    hide *;
    var ks := KeysInOrder(plans.Keys);
    ghost var ps := Entries(plans);
    EntriesAt(plans);
    PlansTokensEnd(ps, rest);
    var i := 0;
    while i < |ks|
      invariant 0 <= i <= |ks|
      invariant w.buf + Encode(PlansTokens(ps[i..], rest)) == old(w.buf) + Encode(PlansTokens(ps, rest))
    {
      PlansTokensUnfold(ps, i, rest);
      PutPlan(w, plans[ks[i]], PlansTokens(ps[i + 1..], rest));
      i := i + 1;
    }
  }

  /** `encode_snapshot`. */
  method WriteSnapshot(s: State) returns (bytes: seq<byte>)
    ensures bytes == EncodeSnapshot(s)
  {
    var w := new ByteWriter();
    ghost var plans := PlansTokens(Entries(s.plans), HistoryTokens(s));
    ghost var requests := RequestsTokens(Entries(s.requests), PlanSection(s));
    ghost var workers := WorkerTokens(s.ctx.workerBoots, SortedKeys(s.ctx.workerBoots.Keys), RequestSection(s));
    assert HistoryTokens(s) == Then(U32(Count(|s.history|)), Strs(s.history, End));
    assert PlanSection(s) == Then(U32(Count(|s.plans|)), plans);
    assert RequestSection(s) == Then(U32(Count(|s.requests|)), requests);
    assert WorkerSection(s) == Then(U32(Count(|s.ctx.workerBoots|)), workers);
    assert SnapshotTokens(s) == Then(U32(FORMAT_VERSION), U64s(Generations(s.ctx), WorkerSection(s)));
    assert EncodeSnapshot(s) == Encode(SnapshotTokens(s)) && Encode(End) == [];
    hide *;
    Encodes(U32(FORMAT_VERSION), U64s(Generations(s.ctx), WorkerSection(s)), w.buf);
    w.PutU32(FORMAT_VERSION);
    PutU64s(w, Generations(s.ctx), WorkerSection(s));
    Encodes(U32(Count(|s.ctx.workerBoots|)), workers, w.buf);
    w.PutU32(Count(|s.ctx.workerBoots|));
    PutWorkers(w, s.ctx.workerBoots, RequestSection(s));
    Encodes(U32(Count(|s.requests|)), requests, w.buf);
    w.PutU32(Count(|s.requests|));
    PutRequests(w, s.requests, PlanSection(s));
    Encodes(U32(Count(|s.plans|)), plans, w.buf);
    w.PutU32(Count(|s.plans|));
    PutPlans(w, s.plans, HistoryTokens(s));
    Encodes(U32(Count(|s.history|)), Strs(s.history, End), w.buf);
    w.PutU32(Count(|s.history|));
    PutStrings(w, s.history, End);
    bytes := w.buf;
    assert bytes + [] == bytes;
  }

  // ---- Reading --------------------------------------------------------------------------------

  method GetOptionI64(r: ByteReader) returns (o: Option<i64>)
    requires r.Valid()
    modifies r
    ensures r.Valid() && Read(o, r.At()) == ReadOptionI64(old(r.At()))
  {
    hide ReadU8;
    hide ReadI64;
    var flag := r.GetU8();
    if flag == 0 {
      return None;
    }
    var x := r.GetI64();
    o := Some(x);
  }

  method GetOptionU64(r: ByteReader) returns (o: Option<u64>)
    requires r.Valid()
    modifies r
    ensures r.Valid() && Read(o, r.At()) == ReadOptionU64(old(r.At()))
  {
    hide ReadU8;
    hide ReadU64;
    var flag := r.GetU8();
    if flag == 0 {
      return None;
    }
    var x := r.GetU64();
    o := Some(x);
  }

  method GetCountedU8s(r: ByteReader) returns (xs: Vec<byte>)
    requires r.Valid()
    modifies r
    ensures r.Valid() && Read(xs, r.At()) == ReadCountedU8s(old(r.At()))
  {
    hide ReadU32;
    hide ReadU8s;
    var n := r.GetU32();
    xs := r.GetU8s(n);
  }

  method GetCountedStrings(r: ByteReader) returns (xs: Vec<text>)
    requires r.Valid()
    modifies r
    ensures r.Valid() && Read(xs, r.At()) == ReadCountedStrs(old(r.At()))
  {
    hide ReadU32;
    hide ReadStrs;
    var n := r.GetU32();
    xs := r.GetStrings(n);
  }

  method GetRequest(r: ByteReader) returns (q: Request)
    requires r.Valid()
    modifies r
    ensures r.Valid() && Read(q, r.At()) == ReadRequest(old(r.At()))
  {
    hide ReadU64s;
    hide ReadStr;
    hide ReadI64;
    hide ReadOptionI64;
    hide ReadOptionU64;
    hide ReadCountedU8s;
    hide ReadCountedStrs;
    hide Codec.Follows;
    var ids := r.GetU64s(6);
    var reason := r.GetString();
    var deadline := GetOptionI64(r);
    var duration := GetOptionI64(r);
    var loss := GetOptionU64(r);
    var preferred := GetCountedU8s(r);
    var forbidden := GetCountedU8s(r);
    var auth := r.GetU64s(3);
    var requestedAt := r.GetI64();
    var states := GetCountedStrings(r);
    var places := GetCountedStrings(r);
    var compats := GetCountedStrings(r);
    q := Request(ids[0], ids[1], ids[2], ids[3], ids[4], ids[5], reason, deadline, duration, loss, preferred, forbidden,
                 auth[0], auth[1], auth[2], requestedAt, states, places, compats);
  }

  method GetStatus(r: ByteReader) returns (s: Status)
    requires r.Valid()
    modifies r
    ensures r.Valid() && Read(s, r.At()) == ReadStatus(old(r.At()))
  {
    hide ReadU8;
    hide ReadI64;
    hide ReadU64;
    var life := r.GetU8();
    var outcome := r.GetU8();
    var published := r.GetU8();
    var created := r.GetI64();
    var updated := r.GetI64();
    var attempt := r.GetU64();
    s := Status(LifeOf(life), OutcomeOf(outcome), published != 0, created, updated, attempt);
  }

  method GetPlan(r: ByteReader) returns (p: Plan)
    requires r.Valid()
    modifies r
    ensures r.Valid() && Read(p, r.At()) == ReadPlan(old(r.At()))
  {
    hide ReadU64s;
    hide ReadU8;
    hide ReadStr;
    hide ReadStatus;
    hide Codec.Follows;
    var ids := r.GetU64s(4);
    var strategy := r.GetU8();
    var t := r.GetU64s(9);
    var a := r.GetU64s(13);
    var s := GetStatus(r);
    var payload := r.GetString();
    var digest := r.GetString();
    p := Plan(ids[0], ids[1], ids[2], ids[3], strategy, t[0], t[1], t[2], t[3], t[4], t[5], t[6], t[7], t[8],
              AuthorityOf(a), s.life, s.outcome, s.published, s.createdAt, s.updatedAt, s.lastAttempt, payload, digest,
              NotKnown);
  }

  // Decoding loops. The one over workers never looks at the reader's state; the others return early.

  method GetWorkers(r: ByteReader, n: nat) returns (boots: map<u64, u64>)
    requires r.Valid()
    modifies r
    ensures r.Valid() && Read(boots, r.At()) == ReadWorkers(old(r.At()), n, map[])
  {
    hide ReadU64;
    boots := map[];
    var i := 0;
    while i < n
      invariant 0 <= i <= n && r.Valid()
      invariant ReadWorkers(r.At(), n - i, boots) == ReadWorkers(old(r.At()), n, map[])
    {
      var w := r.GetU64();
      var b := r.GetU64();
      boots := boots[w := b];
      i := i + 1;
    }
  }

  method GetRequests(r: ByteReader, n: nat) returns (done: bool, requests: map<u64, Request>)
    requires r.Valid()
    modifies r
    ensures r.Valid() && Loop(done, requests, r.At()) == ReadRequests(old(r.At()), n, map[])
  {
    hide ReadRequest;
    requests := map[];
    var i := 0;
    while i < n
      invariant 0 <= i <= n && r.Valid()
      invariant ReadRequests(r.At(), n - i, requests) == ReadRequests(old(r.At()), n, map[])
    {
      var q := GetRequest(r);
      if r.failed {
        return false, requests;
      }
      requests := requests[q.requestId := q];
      i := i + 1;
    }
    done := true;
  }

  method GetPlans(r: ByteReader, n: nat) returns (done: bool, plans: map<u64, Plan>)
    requires r.Valid()
    modifies r
    ensures r.Valid() && Loop(done, plans, r.At()) == ReadPlans(old(r.At()), n, map[])
  {
    hide ReadPlan;
    plans := map[];
    var i := 0;
    while i < n
      invariant 0 <= i <= n && r.Valid()
      invariant ReadPlans(r.At(), n - i, plans) == ReadPlans(old(r.At()), n, map[])
    {
      var p := GetPlan(r);
      if r.failed {
        return false, plans;
      }
      plans := plans[p.planId := p];
      i := i + 1;
    }
    done := true;
  }
}
