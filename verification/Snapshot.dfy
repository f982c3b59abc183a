/**
 The planner snapshot: `encode_snapshot` as a token list, `apply_snapshot` as reads of a cursor, and
 what the second makes of the output of the first, of truncated output and of arbitrary bytes.
 */
module Snapshot {
  import opened Integers
  import opened Domain
  import opened Codec
  import opened KeyOrder

  const FORMAT_VERSION: u32 := 1

  // ---- Enumerations as bytes ------------------------------------------------------------------

  function LifeByte(s: Life): byte {
    match s
    case Requested => 0
    case Evaluating => 1
    case Planned => 2
    case Authorized => 3
    case Dispatched => 4
    case Executing => 5
    case Succeeded => 6
    case Failed => 7
    case Superseded => 8
    case Cancelled => 9
    case Expired => 10
    case Invalidated => 11
    case Unlisted(code) => code
  }

  function LifeOf(b: byte): Life {
    match b
    case 0 => Requested
    case 1 => Evaluating
    case 2 => Planned
    case 3 => Authorized
    case 4 => Dispatched
    case 5 => Executing
    case 6 => Succeeded
    case 7 => Failed
    case 8 => Superseded
    case 9 => Cancelled
    case 10 => Expired
    case 11 => Invalidated
    case _ => Unlisted(b)
  }

  function OutcomeByte(o: Outcome): byte {
    match o
    case Success => 0
    case Failure => 1
    case Ambiguous => 2
    case Unknown => 3
    case Withdrawn => 4
    case OtherOutcome(code) => code
  }

  function OutcomeOf(b: byte): Outcome {
    match b
    case 0 => Success
    case 1 => Failure
    case 2 => Ambiguous
    case 3 => Unknown
    case 4 => Withdrawn
    case _ => OtherOutcome(b)
  }

  /** The enumeration values that name themselves: an unlisted one has an unlisted code. */
  predicate Canonical(p: Plan) {
    && (p.life.Unlisted? ==> p.life.code > 11)
    && (p.outcome.OtherOutcome? ==> p.outcome.code > 4)
  }

  // ---- Requests -------------------------------------------------------------------------------

  function OptionI64(o: Option<i64>, rest: Tokens): Tokens {
    match o
    case None => Then(U8(0), rest)
    case Some(x) => Then(U8(1), Then(I64(x), rest))
  }

  function OptionU64(o: Option<u64>, rest: Tokens): Tokens {
    match o
    case None => Then(U8(0), rest)
    case Some(x) => Then(U8(1), Then(U64(x), rest))
  }

  function CountedU8s(xs: Vec<byte>, rest: Tokens): Tokens { Then(U32(|xs|), U8s(xs, rest)) }

  function CountedStrs(xs: Vec<text>, rest: Tokens): Tokens { Then(U32(|xs|), Strs(xs, rest)) }

  function RequestIds(q: Request): seq<u64> {
    [q.requestId, q.workload, q.workloadGeneration, q.execution, q.executionGeneration, q.failure]
  }

  function RequestAuthority(q: Request): seq<u64> {
    [q.coordinatorEpoch, q.policyGeneration, q.topologyGeneration]
  }

  function RequestTokens(q: Request, rest: Tokens): Tokens {
    U64s(RequestIds(q), Then(Str(q.reason),
      OptionI64(q.recoveryDeadline, OptionI64(q.maxDuration, OptionU64(q.maxLoss,
      CountedU8s(q.preferred, CountedU8s(q.forbidden,
      U64s(RequestAuthority(q), Then(I64(q.requestedAt),
      CountedStrs(q.stateRequirements, CountedStrs(q.placementConstraints,
      CountedStrs(q.compatibilityRequirements, rest))))))))))))
  }

  function ReadOptionI64(c: Cursor): (r: Read<Option<i64>>)
    ensures Follows(c, r.at)
  {
    var flag := ReadU8(c);
    if flag.value == 0 then Read(None, flag.at)
    else
      var x := ReadI64(flag.at);
      Read(Some(x.value), x.at)
  }

  function ReadOptionU64(c: Cursor): (r: Read<Option<u64>>)
    ensures Follows(c, r.at)
  {
    var flag := ReadU8(c);
    if flag.value == 0 then Read(None, flag.at)
    else
      var x := ReadU64(flag.at);
      Read(Some(x.value), x.at)
  }

  function ReadCountedU8s(c: Cursor): (r: Read<Vec<byte>>)
    ensures Follows(c, r.at)
  {
    var n := ReadU32(c);
    var xs := ReadU8s(n.at, n.value);
    Read(xs.value, xs.at)
  }

  function ReadCountedStrs(c: Cursor): (r: Read<Vec<text>>)
    ensures Follows(c, r.at)
  {
    var n := ReadU32(c);
    var xs := ReadStrs(n.at, n.value);
    Read(xs.value, xs.at)
  }

  function ReadRequest(c: Cursor): (r: Read<Request>)
    ensures Follows(c, r.at)
  {
    var ids := ReadU64s(c, 6);
    var reason := ReadStr(ids.at);
    var deadline := ReadOptionI64(reason.at);
    var duration := ReadOptionI64(deadline.at);
    var loss := ReadOptionU64(duration.at);
    var preferred := ReadCountedU8s(loss.at);
    var forbidden := ReadCountedU8s(preferred.at);
    var auth := ReadU64s(forbidden.at, 3);
    var requestedAt := ReadI64(auth.at);
    var states := ReadCountedStrs(requestedAt.at);
    var places := ReadCountedStrs(states.at);
    var compats := ReadCountedStrs(places.at);
    Read(Request(ids.value[0], ids.value[1], ids.value[2], ids.value[3], ids.value[4], ids.value[5], reason.value,
                 deadline.value, duration.value, loss.value, preferred.value, forbidden.value,
                 auth.value[0], auth.value[1], auth.value[2], requestedAt.value,
                 states.value, places.value, compats.value),
         compats.at)
  }

  /** What a snapshot keeps of a request: strings are cut at their first NUL. */
  function DurableRequest(q: Request): Request {
    q.(reason := CutAtNul(q.reason),
       stateRequirements := CutAll(q.stateRequirements),
       placementConstraints := CutAll(q.placementConstraints),
       compatibilityRequirements := CutAll(q.compatibilityRequirements))
  }

  predicate ShortRequest(q: Request) {
    && ShortString(q.reason)
    && AllShort(q.stateRequirements)
    && AllShort(q.placementConstraints)
    && AllShort(q.compatibilityRequirements)
  }

  // ---- Plans ----------------------------------------------------------------------------------

  function PlanIds(p: Plan): seq<u64> { [p.planId, p.generation, p.requestId, p.workload] }

  function PlanTarget(p: Plan): seq<u64> {
    [p.candidateId, p.candidateGeneration, p.targetWorker, p.targetBoot, p.targetEngine, p.engineIncarnation,
     p.stateSource, p.stateGeneration, p.checkpointSource]
  }

  function AuthorityFields(a: Authority): seq<u64> {
    [a.coordinatorEpoch, a.plannerBoot, a.requestId, a.planGeneration, a.candidateGeneration, a.targetBoot,
     a.engineIncarnation, a.stateGeneration, a.compatibilityGeneration, a.resourceGeneration, a.policyGeneration,
     a.topologyGeneration, a.workloadGeneration]
  }

  function AuthorityOf(xs: seq<u64>): Authority
    requires |xs| == 13
  {
    Authority(xs[0], xs[1], xs[2], xs[3], xs[4], xs[5], xs[6], xs[7], xs[8], xs[9], xs[10], xs[11], xs[12])
  }

  function StatusTokens(p: Plan, rest: Tokens): Tokens {
    Then(U8(LifeByte(p.life)), Then(U8(OutcomeByte(p.outcome)), Then(U8(if p.published then 1 else 0),
      Then(I64(p.createdAt), Then(I64(p.updatedAt), Then(U64(p.lastAttempt), rest))))))
  }

  function PlanTokens(p: Plan, rest: Tokens): Tokens {
    U64s(PlanIds(p), Then(U8(p.strategy), U64s(PlanTarget(p), U64s(AuthorityFields(p.authority),
      StatusTokens(p, Then(Str(p.payload), Then(Str(p.digest), rest)))))))
  }

  datatype Status = Status(life: Life, outcome: Outcome, published: bool, createdAt: i64, updatedAt: i64, lastAttempt: u64)

  function ReadStatus(c: Cursor): (r: Read<Status>)
    ensures Follows(c, r.at)
  {
    var life := ReadU8(c);
    var outcome := ReadU8(life.at);
    var published := ReadU8(outcome.at);
    var created := ReadI64(published.at);
    var updated := ReadI64(created.at);
    var attempt := ReadU64(updated.at);
    Read(Status(LifeOf(life.value), OutcomeOf(outcome.value), published.value != 0, created.value, updated.value, attempt.value),
         attempt.at)
  }

  /** A plan read back has the default deadline evaluation: that field is not in the snapshot. */
  function ReadPlan(c: Cursor): (r: Read<Plan>)
    ensures Follows(c, r.at)
  {
    var ids := ReadU64s(c, 4);
    var strategy := ReadU8(ids.at);
    var t := ReadU64s(strategy.at, 9);
    var a := ReadU64s(t.at, 13);
    var s := ReadStatus(a.at);
    var payload := ReadStr(s.at);
    var digest := ReadStr(payload.at);
    Read(Plan(ids.value[0], ids.value[1], ids.value[2], ids.value[3], strategy.value,
              t.value[0], t.value[1], t.value[2], t.value[3], t.value[4], t.value[5], t.value[6], t.value[7], t.value[8],
              AuthorityOf(a.value), s.value.life, s.value.outcome, s.value.published, s.value.createdAt,
              s.value.updatedAt, s.value.lastAttempt, payload.value, digest.value, NotKnown),
         digest.at)
  }

  function DurablePlan(p: Plan): Plan {
    p.(payload := CutAtNul(p.payload), digest := CutAtNul(p.digest), deadline := NotKnown)
  }

  predicate ShortPlan(p: Plan) { ShortString(p.payload) && ShortString(p.digest) }

  // ---- The whole snapshot ---------------------------------------------------------------------

  function Generations(ctx: Context): seq<u64> {
    [ctx.epoch, ctx.plannerBoot, ctx.workloadGeneration, ctx.policyGeneration, ctx.compatibilityGeneration,
     ctx.resourceGeneration, ctx.topologyGeneration]
  }

  /** `static_cast<uint32_t>(size)`. */
  function Count(n: nat): u32 { n % TWO_32 }

  function WorkerTokens(boots: map<u64, u64>, ks: seq<u64>, rest: Tokens): Tokens
    requires forall k :: k in ks ==> k in boots
  {
    if ks == [] then rest else Then(U64(ks[0]), Then(U64(boots[ks[0]]), WorkerTokens(boots, ks[1..], rest)))
  }

  function RequestsTokens(qs: seq<Request>, rest: Tokens): Tokens {
    if qs == [] then rest else RequestTokens(qs[0], RequestsTokens(qs[1..], rest))
  }

  function PlansTokens(ps: seq<Plan>, rest: Tokens): Tokens {
    if ps == [] then rest else PlanTokens(ps[0], PlansTokens(ps[1..], rest))
  }

  function HistoryTokens(s: State): Tokens { Then(U32(Count(|s.history|)), Strs(s.history, End)) }

  ghost function PlanSection(s: State): Tokens {
    Then(U32(Count(|s.plans|)), PlansTokens(Entries(s.plans), HistoryTokens(s)))
  }

  ghost function RequestSection(s: State): Tokens {
    Then(U32(Count(|s.requests|)), RequestsTokens(Entries(s.requests), PlanSection(s)))
  }

  ghost function WorkerSection(s: State): Tokens {
    Then(U32(Count(|s.ctx.workerBoots|)),
         WorkerTokens(s.ctx.workerBoots, SortedKeys(s.ctx.workerBoots.Keys), RequestSection(s)))
  }

  ghost function SnapshotTokens(s: State): Tokens {
    Then(U32(FORMAT_VERSION), U64s(Generations(s.ctx), WorkerSection(s)))
  }

  ghost function EncodeSnapshot(s: State): seq<byte> { Encode(SnapshotTokens(s)) }

  // Decoding loops. A loop that returns early reports `done == false`.

  datatype Loop<T> = Loop(done: bool, result: T, at: Cursor)

  function ReadWorkers(c: Cursor, n: nat, boots: map<u64, u64>): (r: Read<map<u64, u64>>)
    ensures Follows(c, r.at)
    decreases n
  {
    if n == 0 then Read(boots, c)
    else
      var w := ReadU64(c);
      var b := ReadU64(w.at);
      ReadWorkers(b.at, n - 1, boots[w.value := b.value])
  }

  function ReadRequests(c: Cursor, n: nat, m: map<u64, Request>): (r: Loop<map<u64, Request>>)
    ensures Follows(c, r.at)
    ensures !r.done ==> r.at.failed
    decreases n
  {
    if n == 0 then Loop(true, m, c)
    else
      var q := ReadRequest(c);
      if q.at.failed then Loop(false, m, q.at)
      else ReadRequests(q.at, n - 1, m[q.value.requestId := q.value])
  }

  function ReadPlans(c: Cursor, n: nat, m: map<u64, Plan>): (r: Loop<map<u64, Plan>>)
    ensures Follows(c, r.at)
    ensures !r.done ==> r.at.failed
    decreases n
  {
    if n == 0 then Loop(true, m, c)
    else
      var p := ReadPlan(c);
      if p.at.failed then Loop(false, m, p.at)
      else ReadPlans(p.at, n - 1, m[p.value.planId := p.value])
  }

  datatype Applied = Applied(state: State, ok: bool, at: Cursor)

  function ApplyHistory(s: State, c: Cursor): Applied {
    var n := ReadU32(c);
    var xs := ReadStrs(n.at, n.value);
    Applied(s.(history := xs.value), !xs.at.failed, xs.at)
  }

  function ApplyPlans(s: State, c: Cursor): Applied {
    var n := ReadU32(c);
    var ps := ReadPlans(n.at, n.value, map[]);
    var s' := s.(plans := ps.result);
    if !ps.done then Applied(s', false, ps.at) else ApplyHistory(s', ps.at)
  }

  function ApplyRequests(s: State, c: Cursor): Applied {
    var n := ReadU32(c);
    var qs := ReadRequests(n.at, n.value, map[]);
    var s' := s.(requests := qs.result);
    if !qs.done then Applied(s', false, qs.at) else ApplyPlans(s', qs.at)
  }

  /** The worker loop does not look at the reader's state. */
  function ApplyWorkers(s: State, c: Cursor): Applied {
    var n := ReadU32(c);
    var ws := ReadWorkers(n.at, n.value, map[]);
    ApplyRequests(s.(ctx := s.ctx.(workerBoots := ws.value, aliveWorkers := {})), ws.at)
  }

  function WithGenerations(ctx: Context, g: seq<u64>, preserve: bool): Context
    requires |g| == 7
  {
    ctx.(epoch := if preserve then ctx.epoch else g[0],
         plannerBoot := if preserve then ctx.plannerBoot else g[1],
         workloadGeneration := g[2],
         policyGeneration := g[3],
         compatibilityGeneration := g[4],
         resourceGeneration := g[5],
         topologyGeneration := g[6])
  }

  /** `apply_snapshot`: the new state, whatever was mutated before a failure, and the result. */
  function ApplySnapshot(s: State, bytes: seq<byte>, preserve: bool): Applied {
    var version := ReadU32(RawCursor(bytes, 0, false));
    if version.value != FORMAT_VERSION || version.at.failed then Applied(s, false, version.at)
    else
      var g := ReadU64s(version.at, 7);
      var s' := s.(ctx := WithGenerations(s.ctx, g.value, preserve));
      if g.at.failed then Applied(s', false, g.at) else ApplyWorkers(s', g.at)
  }
}
