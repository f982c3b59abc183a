/**
 Runs of the planner: every interleaving of its atomic steps. A dispatch is a begin step and a finish
 step, a completion is a resolve step and a report step; any step may come between them. Finish and
 report steps are not even required to answer a begin step: an executor may do what it likes.
 */
module Runs {
  import opened Integers
  import opened Domain
  import opened Evidence
  import opened Selection
  import opened Planning
  import opened Lifecycle
  import Codec
  import Persistence
  import Restart
  import Snapshot
  import SnapshotProofs
  import Wording

  datatype Change =
    | Register(worker: u64, boot: u64)
    | Unregister(worker: u64)
    | SetResource(kind: text, amount: u64)
    | SetRecompute(generation: u64, available: bool)

  function Changed(ctx: Context, c: Change): Context {
    match c
    case Register(w, b) => ctx.RegisterWorker(w, b)
    case Unregister(w) => ctx.UnregisterWorker(w)
    case SetResource(kind, amount) => ctx.SetResource(kind, amount)
    case SetRecompute(g, available) => ctx.SetRecompute(g, available)
  }

  /** One atomic step. A clock value is whatever the clock says; the store of a restart holds anything. */
  datatype Label =
    | PlanCall(request: Request, candidates: seq<Candidate>, now: i64)
    | AuthorizeCall(id: u64, now: i64)
    | RevalidateCall(id: u64)
    | BeginCall(id: u64, now: i64)
    | FinishCall(id: u64, status: DispatchStatus, now: i64)
    | ReportCall(report: Report, now: i64)
    | ResolveCall(dispatchId: u64, outcome: Outcome)
    | CancelCall(id: u64, force: bool, now: i64)
    | InvalidateCall(id: u64, now: i64)
    | WorldCall(change: Change)
    | RestartCall(disk: Option<Persistence.Disk>, now: i64)

  // A call that throws leaves the planner as it was.

  function AfterPlan(s: State, q: Request, cs: seq<Candidate>, now: i64, sha: Hash): State {
    MakePlan(s, q, cs, now, sha).state
  }

  function AfterAuthorize(s: State, id: u64, now: i64): State {
    var r := AuthorizePlan(s, id, now);
    if r.Done? then r.value else s
  }

  function AfterBegin(s: State, id: u64, now: i64): State {
    var r := BeginDispatch(s, id, now);
    if r.Done? then r.value.state else s
  }

  function AfterFinish(s: State, id: u64, status: DispatchStatus, now: i64): State {
    var r := FinishDispatch(s, id, status, now);
    if r.Done? then r.value else s
  }

  function AfterResolve(s: State, dispatchId: u64, outcome: Outcome): State {
    ResolveCompletion(s, dispatchId, outcome).state
  }

  function AfterCancel(s: State, id: u64, force: bool, now: i64): State { CancelPlan(s, id, force, now).state }

  function AfterChange(s: State, c: Change): State { s.(ctx := Changed(s.ctx, c)) }

  ghost function AfterRestart(s: State, disk: Option<Persistence.Disk>, now: i64): State {
    var r := RestartCoordinator(s, disk, now);
    if r.Done? then r.value.state else s
  }

  ghost function Step(s: State, l: Label, sha: Hash): State {
    match l
    case PlanCall(q, cs, now) => AfterPlan(s, q, cs, now, sha)
    case AuthorizeCall(id, now) => AfterAuthorize(s, id, now)
    case RevalidateCall(_) => s
    case BeginCall(id, now) => AfterBegin(s, id, now)
    case FinishCall(id, status, now) => AfterFinish(s, id, status, now)
    case ReportCall(report, now) => ReportExecution(s, report, now)
    case ResolveCall(dispatchId, outcome) => AfterResolve(s, dispatchId, outcome)
    case CancelCall(id, force, now) => AfterCancel(s, id, force, now)
    case InvalidateCall(id, now) => InvalidatePlan(s, id, now)
    case WorldCall(change) => AfterChange(s, change)
    case RestartCall(disk, now) => AfterRestart(s, disk, now)
  }

  // ---- What holds of one plan -----------------------------------------------------------------

  predicate Listed(s: Life) {
    s.Planned? || s.Authorized? || s.Dispatched? || s.Executing? || s.Succeeded? || s.Failed? || s.Superseded?
    || s.Cancelled? || s.Invalidated?
  }

  /** Id, generation and key agree and were handed out before; the authority repeats the plan's own fences. */
  predicate Identified(p: Plan, key: u64, next: u64) {
    && p.planId == p.generation == p.authority.planGeneration == key
    && 0 < key < next
    && p.authority.requestId == p.requestId
    && p.authority.targetBoot == p.targetBoot
  }

  /** The attempt count follows the life of the plan. */
  predicate Counted(p: Plan) {
    && p.lastAttempt <= 1
    && (p.life.Planned? || p.life.Authorized? || p.life.Cancelled? ==> p.lastAttempt == 0)
    && (p.life.Dispatched? || p.life.Executing? || p.life.Succeeded? || p.life.Failed? ==> p.lastAttempt == 1)
  }

  /** An outcome is published exactly when it is a success or a failure that was reported as such. */
  predicate Accounted(p: Plan) {
    && (p.published <==> (p.life.Succeeded? && p.outcome.Success?) || (p.life.Failed? && p.outcome.Failure?))
    && (p.life.Succeeded? <==> p.outcome.Success?)
    && (p.outcome.Failure? ==> p.life.Failed?)
    && (p.outcome.Withdrawn? ==> p.life.Cancelled? || p.life.Failed?)
    && (!Terminal(p.life) || p.life.Superseded? || p.life.Invalidated? ==> p.outcome.Unknown?)
    && !p.outcome.OtherOutcome?
  }

  /** A live plan belongs to the current epoch and boot; no plan belongs to a later epoch. */
  predicate Fenced(p: Plan, epoch: u64, boot: u64) {
    && p.authority.coordinatorEpoch <= epoch
    && (!Terminal(p.life) ==> p.authority.coordinatorEpoch == epoch && p.authority.plannerBoot == boot)
  }

  predicate PlanOk(p: Plan, key: u64, epoch: u64, boot: u64, next: u64) {
    && Listed(p.life) && Identified(p, key, next) && Counted(p) && Accounted(p) && Fenced(p, epoch, boot)
    && Wording.Plain(p.payload) && Wording.Plain(p.digest)
  }

  // ---- What holds of a reachable state --------------------------------------------------------

  predicate PlansOk(s: State) {
    forall k :: k in s.plans ==> PlanOk(s.plans[k], k, s.ctx.epoch, s.ctx.plannerBoot, s.nextPlanId)
  }

  /** Two live plans of the same request. */
  predicate Rivals(p: Plan, q: Plan) { !Terminal(p.life) && !Terminal(q.life) && p.requestId == q.requestId }

  predicate OneLivePlan(plans: map<u64, Plan>) {
    forall j, k :: j in plans && k in plans && Rivals(plans[j], plans[k]) ==> j == k
  }

  function EntryOf(p: Plan): DispatchEntry { DispatchEntry(p.planId, p.generation, p.targetBoot) }

  /** Every dispatch has id 1; an entry repeats the fences of an existing plan. */
  predicate TableOk(s: State) {
    forall d :: d in s.dispatches ==>
                  d == 1 && s.dispatches[d].planId in s.plans && s.dispatches[d] == EntryOf(s.plans[s.dispatches[d].planId])
  }

  predicate Keyed(m: map<u64, Request>) { forall k :: k in m ==> m[k].requestId == k }

  /** Requests and history can be persisted; no collection has more entries than steps that could add one. */
  predicate RestOk(s: State, n: nat) {
    && Keyed(s.requests)
    && (forall i :: 0 <= i < |s.history| ==> Wording.Plain(s.history[i]))
    && |s.plans| <= n && |s.requests| <= n && |s.history| <= n && |s.ctx.workerBoots| <= n
  }

  /** Ids, generations, epochs and boots count up from 1, in step. */
  predicate CountersOk(s: State, n: nat) {
    && 1 <= s.nextPlanId == s.nextGeneration <= 1 + n
    && 1 <= s.ctx.epoch == s.ctx.plannerBoot <= 1 + n
  }

  /** The invariant, for a state reached by steps of which `n` may have added something. */
  predicate Inv(s: State, n: nat) {
    CountersOk(s, n) && RestOk(s, n) && PlansOk(s) && OneLivePlan(s.plans) && TableOk(s)
  }

  // ---- How a plan evolves ---------------------------------------------------------------------

  predicate SameIdentity(p: Plan, q: Plan) {
    q == p.(life := q.life, outcome := q.outcome, published := q.published, updatedAt := q.updatedAt,
            lastAttempt := q.lastAttempt, deadline := q.deadline)
  }

  predicate SameStatus(p: Plan, q: Plan) {
    p.life == q.life && p.outcome == q.outcome && p.published == q.published && p.lastAttempt == q.lastAttempt
  }

  /** Over any number of steps: who the plan is never changes, and once terminal, neither does its status. */
  predicate Evolves(p: Plan, q: Plan) {
    SameIdentity(p, q) && p.lastAttempt <= q.lastAttempt && (Terminal(p.life) ==> SameStatus(p, q))
  }

  /** Over one step: also, the lifecycle moves along a legal transition, if at all. */
  predicate Moves(p: Plan, q: Plan) {
    && Evolves(p, q)
    && (q.life == p.life || ValidTransition(p.life, q.life))
  }

  predicate PlansMove(before: map<u64, Plan>, after: map<u64, Plan>) {
    forall k :: k in before ==> k in after && Moves(before[k], after[k])
  }

  // ---- What follows from how the plans move ---------------------------------------------------

  lemma NothingMoves(p: Plan)
    ensures Moves(p, p)
  {
  }

  lemma EvolvesMeans(p: Plan, q: Plan)
    requires Evolves(p, q)
    ensures EntryOf(p) == EntryOf(q) && p.requestId == q.requestId && p.authority == q.authority
    ensures !Terminal(q.life) ==> !Terminal(p.life)
  {
  }

  lemma OneLivePlanStays(before: map<u64, Plan>, after: map<u64, Plan>)
    requires OneLivePlan(before) && PlansMove(before, after) && after.Keys <= before.Keys
    ensures OneLivePlan(after)
  {
    hide Terminal;
    hide Evolves;
    hide ValidTransition;
    forall j, k | j in after && k in after && Rivals(after[j], after[k]) ensures j == k {
      EvolvesMeans(before[j], after[j]);
      EvolvesMeans(before[k], after[k]);
      assert Rivals(before[j], before[k]);
    }
  }

  lemma TableStays(s: State, t: State)
    requires TableOk(s) && PlansMove(s.plans, t.plans)
    requires forall d :: d in t.dispatches ==> d in s.dispatches && t.dispatches[d] == s.dispatches[d]
    ensures TableOk(t)
  {
    hide Terminal;
    hide Evolves;
    hide ValidTransition;
    hide EntryOf;
    forall d | d in t.dispatches
      ensures d == 1 && t.dispatches[d].planId in t.plans && t.dispatches[d] == EntryOf(t.plans[t.dispatches[d].planId])
    {
      var id := s.dispatches[d].planId;
      EvolvesMeans(s.plans[id], t.plans[id]);
    }
  }

  // ---- Steps that touch one plan --------------------------------------------------------------

  lemma SetPlanMoves(plans: map<u64, Plan>, id: u64, p: Plan)
    requires id in plans && Moves(plans[id], p)
    ensures PlansMove(plans, plans[id := p]) && plans[id := p].Keys == plans.Keys && |plans[id := p]| == |plans|
  {
    hide Moves;
    var after := plans[id := p];
    forall k | k in plans ensures k in after && Moves(plans[k], after[k]) {
      NothingMoves(plans[k]);
    }
    assert after.Keys == plans.Keys;
    assert |after| == |after.Keys| && |plans| == |plans.Keys|;
  }

  lemma SetPlanKeeps(s: State, id: u64, p: Plan, n: nat)
    requires Inv(s, n) && id in s.plans
    requires PlanOk(p, id, s.ctx.epoch, s.ctx.plannerBoot, s.nextPlanId) && Moves(s.plans[id], p)
    ensures Inv(SetPlan(s, id, p), n) && PlansMove(s.plans, SetPlan(s, id, p).plans)
  {
    hide PlanOk;
    hide Moves;
    hide Keyed;
    hide Wording.Plain;
    hide EntryOf;
    hide Rivals;
    var t := SetPlan(s, id, p);
    SetPlanMoves(s.plans, id, p);
    OneLivePlanStays(s.plans, t.plans);
    TableStays(s, t);
    hide TableOk;
    hide OneLivePlan;
    hide PlansMove;
    assert PlansOk(t);
  }

  /** The plan that a call leaves in the place of `p` is as good as `p`, and got there legally. */
  ghost predicate Replaces(p: Plan, q: Plan) {
    && Moves(p, q)
    && (forall k, e, b, n :: PlanOk(p, k, e, b, n) ==> PlanOk(q, k, e, b, n))
  }

  lemma AuthorizeReplaces(p: Plan, now: i64)
    requires ValidTransition(p.life, Authorized)
    ensures Replaces(p, p.(life := Authorized, updatedAt := now))
  {
    hide Wording.Plain;
  }

  lemma BeginReplaces(p: Plan, now: i64)
    requires p.life.Authorized?
    ensures p.lastAttempt == 0 ==>
              Replaces(p, p.(updatedAt := now, lastAttempt := Next(p.lastAttempt), life := Dispatched))
  {
    hide Wording.Plain;
  }

  lemma ReceiptReplaces(p: Plan, status: DispatchStatus, now: i64)
    ensures Replaces(p, AfterReceipt(p, status, now))
  {
    hide Wording.Plain;
  }

  lemma ReportReplaces(p: Plan, outcome: Outcome, now: i64)
    requires !Terminal(p.life)
    ensures Replaces(p, Reported(p, outcome, now))
  {
    hide Wording.Plain;
  }

  lemma CancelReplaces(p: Plan, force: bool, now: i64)
    requires Cancellable(p, force)
    ensures Replaces(p, p.(life := Cancelled, outcome := Withdrawn, updatedAt := now))
  {
    hide Wording.Plain;
  }

  lemma InvalidateReplaces(p: Plan, now: i64)
    requires ValidTransition(p.life, Invalidated)
    ensures Replaces(p, p.(life := Invalidated, updatedAt := now))
  {
    hide Wording.Plain;
  }

  // ---- Planning -------------------------------------------------------------------------------

  lemma RememberKeeps(s: State, entry: text, n: nat)
    requires Inv(s, n) && Wording.Plain(entry)
    ensures Inv(Remember(s, entry), n + 1)
  {
    hide PlanOk;
    hide Keyed;
    hide Wording.Plain;
    hide OneLivePlan;
    hide EntryOf;
  }

  lemma SupersedeReplaces(p: Plan, requestId: u64, keep: u64, now: i64)
    ensures Replaces(p, SupersededBy(p, requestId, keep, now))
    ensures Listed(p.life) && p.planId != keep && p.requestId == requestId ==>
              Terminal(SupersededBy(p, requestId, keep, now).life)
  {
    NothingMoves(p);
  }

  lemma BuiltPlanOk(s: State, q: Request, c: Candidate, now: i64, sha: Hash, n: nat)
    requires CountersOk(s, n) && n < TWO_32
    ensures var p := BuildPlan(s, q, c, now, sha);
            && PlanOk(p, s.nextPlanId, s.ctx.epoch, s.ctx.plannerBoot, Next(s.nextPlanId))
            && p.requestId == q.requestId && p.lastAttempt == 0 && p.life.Planned?
            && Wording.Plain(p.digest) && |p.digest| <= 64
  {
    hide DecisionDigest;
    hide Wording.Payload;
  }

  predicate Fresh(s: State, p: Plan) {
    && PlanOk(p, s.nextPlanId, s.ctx.epoch, s.ctx.plannerBoot, Next(s.nextPlanId))
    && !Terminal(p.life)
  }

  lemma FreshIsNew(s: State, p: Plan, n: nat)
    requires Inv(s, n) && Fresh(s, p)
    ensures p.planId == s.nextPlanId && p.planId !in s.plans
  {
    hide OneLivePlan;
    hide TableOk;
    hide RestOk;
  }

  lemma InstalledKeys(s: State, q: Request, p: Plan, now: i64)
    ensures Install(s, q, p, now).plans.Keys == s.plans.Keys + {p.planId}
    ensures Install(s, q, p, now).plans[p.planId] == p
    ensures forall k :: k in s.plans && k != p.planId ==>
                          Install(s, q, p, now).plans[k] == SupersededBy(s.plans[k], q.requestId, p.planId, now)
  {
    assert SupersededBy(p, q.requestId, p.planId, now) == p;
    hide SupersededBy;
  }

  /** An older plan after a new one has come in. */
  lemma InstalledPlan(s: State, q: Request, p: Plan, now: i64, n: nat, k: u64)
    requires Inv(s, n) && Fresh(s, p) && k in s.plans
    ensures var r := Install(s, q, p, now).plans[k];
            Replaces(s.plans[k], r) && (s.plans[k].requestId == q.requestId ==> Terminal(r.life))
  {
    FreshIsNew(s, p, n);
    InstalledKeys(s, q, p, now);
    assert PlanOk(s.plans[k], k, s.ctx.epoch, s.ctx.plannerBoot, s.nextPlanId);
    assert Listed(s.plans[k].life) && s.plans[k].planId == k;
    SupersedeReplaces(s.plans[k], q.requestId, p.planId, now);
    hide Inv;
    hide Fresh;
    hide PlanOk;
    hide Replaces;
    hide SupersededBy;
    hide Install;
  }

  lemma OneLivePlanAfterInstall(before: map<u64, Plan>, after: map<u64, Plan>, id: u64)
    requires OneLivePlan(before) && PlansMove(before, after)
    requires id !in before && after.Keys == before.Keys + {id}
    requires forall k :: k in before && before[k].requestId == after[id].requestId ==> Terminal(after[k].life)
    ensures OneLivePlan(after)
  {
    hide Terminal;
    hide Evolves;
    hide ValidTransition;
    forall j, k | j in after && k in after && Rivals(after[j], after[k]) ensures j == k {
      if j in before { EvolvesMeans(before[j], after[j]); }
      if k in before { EvolvesMeans(before[k], after[k]); }
      assert j in before && k in before ==> Rivals(before[j], before[k]);
    }
  }

  lemma LaterIdsKeepPlans(p: Plan, key: u64, epoch: u64, boot: u64, next: u64)
    requires PlanOk(p, key, epoch, boot, next) && next < TWO_64 - 1
    ensures PlanOk(p, key, epoch, boot, Next(next))
  {
  }

  lemma InstalledPlanOk(s: State, q: Request, p: Plan, now: i64, n: nat, k: u64)
    requires Inv(s, n) && n < TWO_32 && Fresh(s, p) && k in Install(s, q, p, now).plans
    ensures PlanOk(Install(s, q, p, now).plans[k], k, s.ctx.epoch, s.ctx.plannerBoot, Next(s.nextPlanId))
  {
    FreshIsNew(s, p, n);
    InstalledKeys(s, q, p, now);
    hide Install;
    if k != p.planId {
      assert PlanOk(s.plans[k], k, s.ctx.epoch, s.ctx.plannerBoot, s.nextPlanId);
      assert s.nextPlanId <= 1 + n;
      hide Inv;
      hide Fresh;
      InstalledPlan(s, q, p, now, n, k);
      hide SupersededBy;
      LaterIdsKeepPlans(s.plans[k], k, s.ctx.epoch, s.ctx.plannerBoot, s.nextPlanId);
      hide PlanOk;
    }
  }

  lemma InstalledPlansOk(s: State, q: Request, p: Plan, now: i64, n: nat)
    requires Inv(s, n) && n < TWO_32 && Fresh(s, p)
    ensures PlansOk(Install(s, q, p, now)) && CountersOk(Install(s, q, p, now), n + 1)
  {
    InstalledRest(s, q, p, now);
    var t := Install(s, q, p, now);
    hide PlanOk;
    forall k | k in t.plans ensures PlanOk(t.plans[k], k, t.ctx.epoch, t.ctx.plannerBoot, t.nextPlanId) {
      InstalledPlanOk(s, q, p, now, n, k);
    }
    hide PlansOk;
    hide RestOk;
    hide OneLivePlan;
    hide TableOk;
    hide Fresh;
    hide SupersedeOlder;
  }

  lemma InstalledRest(s: State, q: Request, p: Plan, now: i64)
    ensures var t := Install(s, q, p, now);
            && t == s.(plans := t.plans, nextPlanId := t.nextPlanId, nextGeneration := t.nextGeneration)
            && t.nextPlanId == Next(s.nextPlanId) && t.nextGeneration == Next(s.nextGeneration)
  {
    hide SupersedeOlder;
  }

  lemma InstalledMoves(s: State, q: Request, p: Plan, now: i64, n: nat)
    requires Inv(s, n) && Fresh(s, p)
    ensures var t := Install(s, q, p, now);
            && PlansMove(s.plans, t.plans)
            && (forall k :: k in s.plans && s.plans[k].requestId == q.requestId ==> Terminal(t.plans[k].life))
  {
    var t := Install(s, q, p, now);
    InstalledKeys(s, q, p, now);
    hide *;
    forall k | k in s.plans
      ensures Moves(s.plans[k], t.plans[k]) && (s.plans[k].requestId == q.requestId ==> Terminal(t.plans[k].life))
    {
      InstalledPlan(s, q, p, now, n, k);
      ReplacesMoves(s.plans[k], t.plans[k]);
    }
    MovesAll(s.plans, t.plans);
  }

  lemma ReplacesMoves(p: Plan, q: Plan)
    requires Replaces(p, q)
    ensures Moves(p, q)
  {
  }

  lemma MovesAll(before: map<u64, Plan>, after: map<u64, Plan>)
    requires before.Keys <= after.Keys && forall k :: k in before ==> Moves(before[k], after[k])
    ensures PlansMove(before, after)
  {
    hide Moves;
  }

  lemma InstallKeeps(s: State, q: Request, p: Plan, now: i64, n: nat)
    requires Inv(s, n) && Fresh(s, p) && p.requestId == q.requestId
    ensures var t := Install(s, q, p, now);
            PlansMove(s.plans, t.plans) && OneLivePlan(t.plans) && TableOk(t) && |t.plans| <= n + 1
  {
    var t := Install(s, q, p, now);
    assert OneLivePlan(s.plans) && TableOk(s) && |s.plans| <= n;
    FreshIsNew(s, p, n);
    InstalledKeys(s, q, p, now);
    InstalledRest(s, q, p, now);
    InstalledMoves(s, q, p, now, n);
    hide *;
    OneLivePlanAfterInstall(s.plans, t.plans, p.planId);
    TableStays(s, t);
    assert |t.plans| == |t.plans.Keys| && |s.plans| == |s.plans.Keys|;
  }

  lemma MakePlanKeeps(s: State, q: Request, cs: seq<Candidate>, now: i64, sha: Hash, n: nat)
    requires Inv(s, n) && n < TWO_32
    ensures var t := MakePlan(s, q, cs, now, sha).state; Inv(t, n + 1) && PlansMove(s.plans, t.plans)
  {
    var d := Decide(cs, q, s.ctx, now);
    EveryPlanMoves(s.plans);
    InvGrows(s, n);
    if d.Selects() {
      SelectsOnlyFromSome(cs, q, s.ctx, now);
      SelectedPlanKeeps(s, q, cs[d.ranking[0]], d.outcome, now, sha, n);
    } else {
      RememberKeeps(s, Wording.HistoryEntry(q, d.outcome), n);
    }
    hide Inv;
    hide Decide;
    hide Install;
    hide PlansMove;
    hide BuildPlan;
    hide Wording.HistoryEntry;
    hide Wording.HistoryEntryWithPlan;
  }

  lemma SelectsOnlyFromSome(cs: seq<Candidate>, q: Request, ctx: Context, now: i64)
    ensures Decide(cs, q, ctx, now).Selects() ==> cs != [] && !Decide(cs, q, ctx, now).outcome.NoCandidates?
  {
  }

  lemma EveryPlanMoves(plans: map<u64, Plan>)
    ensures PlansMove(plans, plans)
  {
    hide Moves;
    forall k | k in plans ensures Moves(plans[k], plans[k]) { NothingMoves(plans[k]); }
  }

  lemma InvGrows(s: State, n: nat)
    requires Inv(s, n)
    ensures Inv(s, n + 1)
  {
    hide PlansOk;
    hide OneLivePlan;
    hide TableOk;
    hide Keyed;
    hide Wording.Plain;
  }

  /** Requests and history matter only to their own part of the invariant. */
  lemma CoreCarries(s: State, requests: map<u64, Request>, history: seq<text>, n: nat)
    requires CountersOk(s, n) && PlansOk(s) && OneLivePlan(s.plans) && TableOk(s)
    requires RestOk(s.(requests := requests, history := history), n)
    ensures Inv(s.(requests := requests, history := history), n)
  {
    hide PlanOk;
    hide OneLivePlan;
    hide EntryOf;
    hide RestOk;
  }

  lemma InsertedSize<V>(m: map<u64, V>, k: u64, v: V)
    ensures |m[k := v]| <= |m| + 1
  {
    var all := m.Keys + {k};
    assert m[k := v].Keys == all && |all| <= |m.Keys| + 1;
    assert |m[k := v]| == |m[k := v].Keys| && |m| == |m.Keys|;
  }

  lemma RememberedRestOk(s: State, q: Request, found: bool, entry: text, n: nat)
    requires RestOk(s, n) && Wording.Plain(entry)
    ensures var requests := if found then s.requests[q.requestId := q] else s.requests;
            && Keyed(requests) && |requests| <= n + 1
            && (forall i :: 0 <= i < |s.history + [entry]| ==> Wording.Plain((s.history + [entry])[i]))
  {
    hide Wording.Plain;
    InsertedSize(s.requests, q.requestId, q);
  }

  lemma RememberedIs(s: State, q: Request, p: Plan, found: bool, entry: text, now: i64)
    ensures var s' := Install(s, q, p, now);
            var s'' := if found then s'.(requests := s'.requests[q.requestId := q]) else s';
            Remember(s'', entry) ==
              s'.(requests := if found then s.requests[q.requestId := q] else s.requests, history := s.history + [entry])
  {
    InstalledRest(s, q, p, now);
    hide Install;
  }

  /** A new plan is installed, its request kept if it was found for it, and the decision recorded. */
  lemma RecordedPlanKeeps(s: State, q: Request, p: Plan, found: bool, entry: text, now: i64, n: nat)
    requires Inv(s, n) && n < TWO_32 && Fresh(s, p) && p.requestId == q.requestId && Wording.Plain(entry)
    ensures var s' := Install(s, q, p, now);
            var s'' := if found then s'.(requests := s'.requests[q.requestId := q]) else s';
            Inv(Remember(s'', entry), n + 1) && PlansMove(s.plans, s'.plans)
  {
    assert |s.history| <= n && |s.ctx.workerBoots| <= n && RestOk(s, n);
    InstalledRest(s, q, p, now);
    var s' := Install(s, q, p, now);
    var requests := if found then s.requests[q.requestId := q] else s.requests;
    hide *;
    InstallKeeps(s, q, p, now, n);
    InstalledPlansOk(s, q, p, now, n);
    RememberedRestOk(s, q, found, entry, n);
    RestOkFrom(s', requests, s.history + [entry], n + 1);
    CoreCarries(s', requests, s.history + [entry], n + 1);
    RememberedIs(s, q, p, found, entry, now);
  }

  lemma RestOkFrom(s: State, requests: map<u64, Request>, history: seq<text>, n: nat)
    requires Keyed(requests) && |requests| <= n && |history| <= n
    requires forall i :: 0 <= i < |history| ==> Wording.Plain(history[i])
    requires |s.plans| <= n && |s.ctx.workerBoots| <= n
    ensures RestOk(s.(requests := requests, history := history), n)
  {
    hide Keyed;
    hide Wording.Plain;
  }

  /** The steps of `plan` once a candidate is selected. */
  lemma SelectedPlanKeeps(s: State, q: Request, c: Candidate, outcome: PlanOutcome, now: i64, sha: Hash, n: nat)
    requires Inv(s, n) && n < TWO_32
    ensures var p := BuildPlan(s, q, c, now, sha);
            var s' := Install(s, q, p, now);
            var s'' := if outcome.PlanFound? then s'.(requests := s'.requests[q.requestId := q]) else s';
            var t := Remember(s'', Wording.HistoryEntryWithPlan(q, outcome, p));
            Inv(t, n + 1) && PlansMove(s.plans, t.plans)
  {
    var p := BuildPlan(s, q, c, now, sha);
    BuiltPlanOk(s, q, c, now, sha, n);
    var entry := Wording.HistoryEntryWithPlan(q, outcome, p);
    assert Fresh(s, p) && Wording.Plain(entry);
    hide BuildPlan;
    hide Wording.HistoryEntryWithPlan;
    hide Wording.Plain;
    hide Install;
    hide Inv;
    hide Fresh;
    hide PlanOk;
    hide PlansMove;
    RecordedPlanKeeps(s, q, p, outcome.PlanFound?, entry, now, n);
  }

  // ---- Restart --------------------------------------------------------------------------------

  lemma PlainTextPersists(t: text)
    requires Wording.Plain(t)
    ensures Codec.ShortString(t) && Codec.CutAtNul(t) == t
  {
  }

  lemma {:induction false} PlainHistoryPersists(xs: seq<text>)
    requires forall i :: 0 <= i < |xs| ==> Wording.Plain(xs[i])
    ensures Codec.AllShort(xs) && Codec.CutAll(xs) == xs
  {
    if xs != [] {
      PlainTextPersists(xs[0]);
      PlainHistoryPersists(xs[1..]);
    }
  }

  lemma PlanPersists(p: Plan, key: u64, epoch: u64, boot: u64, next: u64)
    requires PlanOk(p, key, epoch, boot, next)
    ensures Snapshot.ShortPlan(p) && Snapshot.DurablePlan(p) == p.(deadline := NotKnown)
    ensures p.planId == key && Snapshot.Canonical(p)
  {
    PlainTextPersists(p.payload);
    PlainTextPersists(p.digest);
  }

  lemma InvPersists(s: State, n: nat)
    requires Inv(s, n) && n < TWO_32
    ensures SnapshotProofs.Countable(s) && SnapshotProofs.WellKeyed(s) && Restart.PlansPersist(s)
  {
    PlainHistoryPersists(s.history);
    forall k | k in s.plans
      ensures s.plans[k].planId == k && Snapshot.Canonical(s.plans[k]) && Snapshot.ShortPlan(s.plans[k])
    {
      PlanPersists(s.plans[k], k, s.ctx.epoch, s.ctx.plannerBoot, s.nextPlanId);
    }
    hide OneLivePlan;
    hide TableOk;
    hide PlanOk;
    hide Snapshot.Canonical;
    hide Snapshot.ShortPlan;
    hide Codec.AllShort;
    hide Codec.CutAll;
  }

  /** A plan after a restart: terminal, of the old epoch, and where a legal transition leads. */
  lemma RestartedPlanOk(p: Plan, q: Plan, now: i64, k: u64, epoch: u64, boot: u64, next: u64)
    requires PlanOk(p, k, epoch, boot, next) && epoch < TWO_64 - 1
    requires q == (if Terminal(p.life) then p else p.(life := Invalidated, updatedAt := now)).(deadline := q.deadline)
    ensures PlanOk(q, k, Next(epoch), Next(boot), next) && Moves(p, q) && Terminal(q.life)
  {
    hide Wording.Plain;
  }

  /** A plan before and after a restart; only through a store is its deadline evaluation forgotten. */
  predicate RestartsTo(p: Plan, q: Plan, now: i64) {
    q == (if Terminal(p.life) then p else p.(life := Invalidated, updatedAt := now)).(deadline := q.deadline)
  }

  lemma RestartsAt(s: State, disk: Option<Persistence.Disk>, after: map<u64, Plan>, now: i64, n: nat, k: u64)
    requires PlansOk(s) && k in s.plans
    requires Restart.RestartedPlans(Restart.PlansAtRestart(s, disk), after, now)
    ensures k in after && RestartsTo(s.plans[k], after[k], now)
  {
    PlanPersists(s.plans[k], k, s.ctx.epoch, s.ctx.plannerBoot, s.nextPlanId);
    hide PlansOk;
    hide SnapshotProofs.RequestsAreShort;
    hide Snapshot.DurablePlan;
    var before := Restart.PlansAtRestart(s, disk);
    assert k in before && k in after;
    assert before[k].life == s.plans[k].life;
  }

  /** The invariant survives a restart: the epoch advances, and every live plan becomes INVALIDATED. */
  lemma RestartKeeps(s: State, disk: Option<Persistence.Disk>, now: i64, n: nat)
    requires Inv(s, n) && n < TWO_32
    requires RestartCoordinator(s, disk, now).Done?
    ensures Restarts(s, RestartCoordinator(s, disk, now).value.state, now, n)
  {
    InvPersists(s, n);
    hide Inv;
    Restart.RestartKeepsPlans(s, disk, now);
    var t := RestartCoordinator(s, disk, now).value.state;
    hide *;
    RestartedStateKeeps(s, disk, t, now, n);
  }

  predicate Restarts(s: State, t: State, now: i64, n: nat) {
    && Inv(t, n + 1) && PlansMove(s.plans, t.plans)
    && t.plans.Keys == s.plans.Keys
    && (forall k :: k in s.plans ==> RestartsTo(s.plans[k], t.plans[k], now))
    && t.ctx.epoch == s.ctx.epoch + 1
  }

  lemma RestartedStateKeeps(s: State, disk: Option<Persistence.Disk>, t: State, now: i64, n: nat)
    requires Inv(s, n) && n < TWO_32 && Restart.RestartedState(s, disk, now, t)
    ensures Restarts(s, t, now, n)
  {
    hide *;
    RestartedParts(s, disk, t, now, n);
    RestartedPlansKeep(s, t, disk, now, n);
    RequestsStayKeyed(s, disk);
    RestartedRestOk(s, t, n);
    InvFrom(t, n + 1);
    RestartsFrom(s, t, now, n);
  }

  /** What a restarted state says, part by part. */
  lemma RestartedParts(s: State, disk: Option<Persistence.Disk>, t: State, now: i64, n: nat)
    requires Inv(s, n) && n < TWO_32 && Restart.RestartedState(s, disk, now, t)
    ensures RestOk(s, n) && Keyed(s.requests) && CountersOk(t, n + 1)
    ensures Restart.RestartedPlans(Restart.PlansAtRestart(s, disk), t.plans, now)
    ensures t.requests == Restart.RequestsAtRestart(s, disk) && t.dispatches == s.dispatches && t.nextPlanId == s.nextPlanId
    ensures t.history == s.history + [Wording.RestartEntry(t.ctx.epoch, t.ctx.plannerBoot)]
    ensures t.ctx.workerBoots == s.ctx.workerBoots
    ensures t.ctx.epoch == Next(s.ctx.epoch) == s.ctx.epoch + 1 && t.ctx.plannerBoot == Next(s.ctx.plannerBoot)
  {
    hide PlansOk;
    hide OneLivePlan;
    hide TableOk;
    hide Restart.RestartedPlans;
    hide Restart.PlansAtRestart;
    hide Restart.RequestsAtRestart;
    hide Wording.RestartEntry;
    hide Wording.Plain;
    hide Keyed;
  }

  lemma RestartsFrom(s: State, t: State, now: i64, n: nat)
    requires Inv(t, n + 1) && PlansMove(s.plans, t.plans) && t.plans.Keys == s.plans.Keys
    requires forall k :: k in s.plans ==> RestartsTo(s.plans[k], t.plans[k], now)
    requires t.ctx.epoch == s.ctx.epoch + 1
    ensures Restarts(s, t, now, n)
  {
    hide Inv;
    hide PlansMove;
    hide RestartsTo;
  }

  lemma InvFrom(t: State, n: nat)
    requires CountersOk(t, n) && RestOk(t, n) && PlansOk(t) && OneLivePlan(t.plans) && TableOk(t)
    ensures Inv(t, n)
  {
    hide CountersOk;
    hide RestOk;
    hide PlansOk;
    hide OneLivePlan;
    hide TableOk;
  }

  /** Requests that survive a restart are still under their own ids. */
  lemma RequestsStayKeyed(s: State, disk: Option<Persistence.Disk>)
    requires Keyed(s.requests)
    ensures var r := Restart.RequestsAtRestart(s, disk); Keyed(r) && |r| <= |s.requests|
  {
    hide SnapshotProofs.RequestsAreShort;
    hide Snapshot.ShortRequest;
    if disk.Some? {
      var r := Restart.ReadableRequests(s);
      hide Restart.Readable;
      Restart.ReadableKeys(s);
      SmallerMap(r, s.requests);
    }
  }

  lemma SmallerMap<V>(m: map<u64, V>, n: map<u64, V>)
    requires m.Keys <= n.Keys
    ensures |m| <= |n|
  {
    SmallerSet(m.Keys, n.Keys);
    assert |m| == |m.Keys| && |n| == |n.Keys|;
  }

  lemma {:induction false} SmallerSet(a: set<u64>, b: set<u64>)
    requires a <= b
    ensures |a| <= |b|
  {
    if a != {} {
      var x :| x in a;
      SmallerSet(a - {x}, b - {x});
    }
  }

  lemma RestartedRestOk(s: State, t: State, n: nat)
    requires RestOk(s, n) && Keyed(t.requests) && |t.requests| <= |s.requests| && |t.plans| == |s.plans|
    requires t.history == s.history + [Wording.RestartEntry(t.ctx.epoch, t.ctx.plannerBoot)]
    requires t.ctx.workerBoots == s.ctx.workerBoots
    ensures RestOk(t, n + 1)
  {
    hide Wording.Plain;
    hide Wording.RestartEntry;
    hide Keyed;
  }

  lemma RestartedPlansKeep(s: State, t: State, disk: Option<Persistence.Disk>, now: i64, n: nat)
    requires Inv(s, n) && n < TWO_32
    requires Restart.RestartedPlans(Restart.PlansAtRestart(s, disk), t.plans, now)
    requires t.ctx.epoch == Next(s.ctx.epoch) && t.ctx.plannerBoot == Next(s.ctx.plannerBoot)
    requires t.nextPlanId == s.nextPlanId && t.dispatches == s.dispatches
    ensures PlansOk(t) && PlansMove(s.plans, t.plans) && OneLivePlan(t.plans) && TableOk(t)
    ensures t.plans.Keys == s.plans.Keys && |t.plans| == |s.plans|
    ensures forall k :: k in s.plans ==> RestartsTo(s.plans[k], t.plans[k], now)
  {
    assert t.plans.Keys == s.plans.Keys;
    assert |t.plans| == |t.plans.Keys| && |s.plans| == |s.plans.Keys|;
    forall k | k in s.plans
      ensures PlanOk(s.plans[k], k, s.ctx.epoch, s.ctx.plannerBoot, s.nextPlanId)
      ensures PlanOk(t.plans[k], k, t.ctx.epoch, t.ctx.plannerBoot, t.nextPlanId)
      ensures Moves(s.plans[k], t.plans[k]) && RestartsTo(s.plans[k], t.plans[k], now)
    {
      RestartsAt(s, disk, t.plans, now, n, k);
      RestartedPlanOk(s.plans[k], t.plans[k], now, k, s.ctx.epoch, s.ctx.plannerBoot, s.nextPlanId);
    }
    assert OneLivePlan(s.plans) && TableOk(s);
    hide *;
    MovesAll(s.plans, t.plans);
    OneLivePlanStays(s.plans, t.plans);
    TableStays(s, t);
    PlansOkFrom(t, s.plans.Keys);
  }

  lemma PlansOkFrom(t: State, keys: set<u64>)
    requires t.plans.Keys == keys
    requires forall k :: k in keys ==> PlanOk(t.plans[k], k, t.ctx.epoch, t.ctx.plannerBoot, t.nextPlanId)
    ensures PlansOk(t)
  {
    hide PlanOk;
  }

  // ---- The other steps ------------------------------------------------------------------------

  /** Replacing one plan by a plan that may replace it. */
  lemma ReplacingKeeps(s: State, id: u64, q: Plan, n: nat)
    requires Inv(s, n) && id in s.plans
    requires PlanOk(s.plans[id], id, s.ctx.epoch, s.ctx.plannerBoot, s.nextPlanId) ==> Replaces(s.plans[id], q)
    ensures Inv(SetPlan(s, id, q), n) && PlansMove(s.plans, SetPlan(s, id, q).plans)
  {
    hide OneLivePlan;
    hide TableOk;
    hide RestOk;
    hide PlanOk;
    hide Moves;
    assert PlanOk(s.plans[id], id, s.ctx.epoch, s.ctx.plannerBoot, s.nextPlanId);
    assert PlanOk(q, id, s.ctx.epoch, s.ctx.plannerBoot, s.nextPlanId);
    hide *;
    ReplacesMoves(s.plans[id], q);
    SetPlanKeeps(s, id, q, n);
  }

  lemma AttemptBeforeDispatch(p: Plan, key: u64, epoch: u64, boot: u64, next: u64)
    requires PlanOk(p, key, epoch, boot, next) && p.life.Authorized?
    ensures p.lastAttempt == 0 && p.planId == key
  {
  }

  /** What a begin step does to the state. */
  lemma BeginChanges(s: State, id: u64, now: i64)
    requires BeginDispatch(s, id, now).Done? && s.plans[id].lastAttempt == 0
    ensures var b := BeginDispatch(s, id, now).value;
            && b.dispatch.dispatchId == 1
            && b.state == SetPlan(s, id, s.plans[id].(updatedAt := now, lastAttempt := 1, life := Dispatched))
                          .(dispatches := s.dispatches[1 := EntryOf(s.plans[id])])
            && s.plans[id].life.Authorized?
  {
    hide AuthorityCurrent;
  }

  lemma OnlyOneEntry(s: State, e: DispatchEntry)
    requires TableOk(s)
    ensures s.dispatches[1 := e] == map[1 := e]
  {
    assert forall k :: k in s.dispatches ==> k == 1;
  }

  lemma NewEntryKeeps(t: State, id: u64, n: nat)
    requires Inv(t, n) && id in t.plans && t.plans[id].planId == id
    ensures Inv(t.(dispatches := map[1 := EntryOf(t.plans[id])]), n)
  {
    hide PlanOk;
    hide OneLivePlan;
    hide Keyed;
    hide Wording.Plain;
  }

  lemma BeginKeeps(s: State, id: u64, now: i64, n: nat)
    requires Inv(s, n) && BeginDispatch(s, id, now).Done?
    ensures var b := BeginDispatch(s, id, now).value;
            && Inv(b.state, n) && PlansMove(s.plans, b.state.plans)
            && b.state.dispatches == map[1 := EntryOf(s.plans[id])]
            && b.state.plans == s.plans[id := s.plans[id].(updatedAt := now, lastAttempt := 1, life := Dispatched)]
            && b.dispatch.dispatchId == 1
  {
    var p := s.plans[id];
    assert PlanOk(p, id, s.ctx.epoch, s.ctx.plannerBoot, s.nextPlanId);
    assert TableOk(s);
    hide Inv;
    hide BeginDispatch;
    hide EntryOf;
    BeginIsOfAuthorized(s, id, now);
    AttemptBeforeDispatch(p, id, s.ctx.epoch, s.ctx.plannerBoot, s.nextPlanId);
    hide PlanOk;
    hide Replaces;
    BeginChanges(s, id, now);
    BeginReplaces(p, now);
    var q := p.(updatedAt := now, lastAttempt := 1, life := Dispatched);
    ReplacingKeeps(s, id, q, n);
    OnlyOneEntry(s, EntryOf(p));
    hide TableOk;
    hide PlansMove;
    NewEntryKeeps(SetPlan(s, id, q), id, n);
    assert EntryOf(p) == EntryOf(q) by { SameEntry(p, q); }
  }

  lemma BeginIsOfAuthorized(s: State, id: u64, now: i64)
    requires BeginDispatch(s, id, now).Done?
    ensures id in s.plans && s.plans[id].life.Authorized? && AuthorityCurrent(s.plans[id], s.ctx)
  {
    hide AuthorityCurrent;
  }

  lemma SameEntry(p: Plan, q: Plan)
    requires SameIdentity(p, q)
    ensures EntryOf(p) == EntryOf(q)
  {
  }

  lemma ResolveKeeps(s: State, dispatchId: u64, outcome: Outcome, n: nat)
    requires Inv(s, n)
    ensures Inv(ResolveCompletion(s, dispatchId, outcome).state, n)
  {
    hide PlanOk;
    hide OneLivePlan;
    hide EntryOf;
    hide RestOk;
    assert RestOk(ResolveCompletion(s, dispatchId, outcome).state, n) by { RestOfDispatches(s, dispatchId, outcome, n); }
  }

  lemma RestOfDispatches(s: State, dispatchId: u64, outcome: Outcome, n: nat)
    requires RestOk(s, n)
    ensures RestOk(ResolveCompletion(s, dispatchId, outcome).state, n)
  {
    hide Wording.Plain;
    hide Keyed;
  }

  lemma WorldKeeps(s: State, c: Change, n: nat)
    requires Inv(s, n)
    ensures Inv(s.(ctx := Changed(s.ctx, c)), n + 1)
  {
    if c.Register? {
      InsertedSize(s.ctx.workerBoots, c.worker, c.boot);
    }
    hide PlanOk;
    hide OneLivePlan;
    hide EntryOf;
    hide Wording.Plain;
    hide Keyed;
  }

  /** How many entries a step may add to a collection, or values it may draw from a counter. */
  function Weight(l: Label): nat { if l.PlanCall? || l.WorldCall? || l.RestartCall? then 1 else 0 }

  /** `t` may follow `s`: the invariant holds, no plan is lost, and every plan has moved legally, if at all. */
  ghost predicate Follows(s: State, t: State, n: nat) {
    Inv(t, n) && PlansMove(s.plans, t.plans)
  }

  lemma StandingStill(s: State, n: nat)
    requires Inv(s, n)
    ensures Follows(s, s, n) && Follows(s, s, n + 1)
  {
    EveryPlanMoves(s.plans);
    InvGrows(s, n);
  }

  lemma AuthorizeKeeps(s: State, id: u64, now: i64, n: nat)
    requires Inv(s, n) && AuthorizePlan(s, id, now).Done?
    ensures var t := AuthorizePlan(s, id, now).value; Inv(t, n) && PlansMove(s.plans, t.plans)
  {
    hide Inv;
    hide AuthorityCurrent;
    hide PlanOk;
    hide Replaces;
    AuthorizeReplaces(s.plans[id], now);
    ReplacingKeeps(s, id, s.plans[id].(life := Authorized, updatedAt := now), n);
  }

  lemma FinishKeeps(s: State, id: u64, status: DispatchStatus, now: i64, n: nat)
    requires Inv(s, n) && FinishDispatch(s, id, status, now).Done?
    ensures var t := FinishDispatch(s, id, status, now).value; Inv(t, n) && PlansMove(s.plans, t.plans)
  {
    hide Inv;
    hide AfterReceipt;
    hide PlanOk;
    hide Replaces;
    ReceiptReplaces(s.plans[id], status, now);
    ReplacingKeeps(s, id, AfterReceipt(s.plans[id], status, now), n);
  }

  lemma ReportKeeps(s: State, r: Report, now: i64, n: nat)
    requires Inv(s, n)
    ensures Follows(s, ReportExecution(s, r, now), n)
  {
    EveryPlanMoves(s.plans);
    hide Inv;
    hide Reported;
    hide PlanOk;
    hide Replaces;
    hide PlansMove;
    if Admitted(s, r) {
      ReportReplaces(s.plans[r.planId], r.outcome, now);
      ReplacingKeeps(s, r.planId, Reported(s.plans[r.planId], r.outcome, now), n);
    }
  }

  lemma CancelKeeps(s: State, id: u64, force: bool, now: i64, n: nat)
    requires Inv(s, n)
    ensures Follows(s, AfterCancel(s, id, force, now), n)
  {
    EveryPlanMoves(s.plans);
    hide Inv;
    hide Cancellable;
    hide PlanOk;
    hide Replaces;
    hide PlansMove;
    if id in s.plans && Cancellable(s.plans[id], force) {
      CancelReplaces(s.plans[id], force, now);
      ReplacingKeeps(s, id, s.plans[id].(life := Cancelled, outcome := Withdrawn, updatedAt := now), n);
    }
  }

  lemma InvalidateKeeps(s: State, id: u64, now: i64, n: nat)
    requires Inv(s, n)
    ensures Follows(s, InvalidatePlan(s, id, now), n)
  {
    EveryPlanMoves(s.plans);
    hide Inv;
    hide PlanOk;
    hide Replaces;
    hide PlansMove;
    if id in s.plans && ValidTransition(s.plans[id].life, Invalidated) {
      InvalidateReplaces(s.plans[id], now);
      ReplacingKeeps(s, id, s.plans[id].(life := Invalidated, updatedAt := now), n);
    }
  }

  lemma ResolveTouchesNoPlan(s: State, d: u64, outcome: Outcome)
    ensures var r := ResolveCompletion(s, d, outcome).state; r == s.(dispatches := r.dispatches)
  {
  }

  lemma AfterPlanFollows(s: State, q: Request, cs: seq<Candidate>, now: i64, sha: Hash, n: nat)
    requires Inv(s, n) && n < TWO_32
    ensures Follows(s, AfterPlan(s, q, cs, now, sha), n + 1)
  {
    hide Inv;
    hide PlansMove;
    hide MakePlan;
    MakePlanKeeps(s, q, cs, now, sha, n);
  }

  lemma AfterRestartFollows(s: State, disk: Option<Persistence.Disk>, now: i64, n: nat)
    requires Inv(s, n) && n < TWO_32
    ensures Follows(s, AfterRestart(s, disk, now), n + 1)
  {
    StandingStill(s, n);
    hide Inv;
    hide PlansMove;
    hide RestartCoordinator;
    hide RestartsTo;
    if RestartCoordinator(s, disk, now).Done? {
      RestartKeeps(s, disk, now, n);
    }
  }

  lemma AfterChangeFollows(s: State, c: Change, n: nat)
    requires Inv(s, n)
    ensures Follows(s, AfterChange(s, c), n + 1)
  {
    EveryPlanMoves(s.plans);
    WorldKeeps(s, c, n);
    hide Inv;
    hide PlansMove;
    hide Changed;
  }

  lemma AfterAuthorizeFollows(s: State, id: u64, now: i64, n: nat)
    requires Inv(s, n)
    ensures Follows(s, AfterAuthorize(s, id, now), n)
  {
    StandingStill(s, n);
    hide Inv;
    hide PlansMove;
    hide AuthorizePlan;
    if AuthorizePlan(s, id, now).Done? { AuthorizeKeeps(s, id, now, n); }
  }

  lemma AfterBeginFollows(s: State, id: u64, now: i64, n: nat)
    requires Inv(s, n)
    ensures Follows(s, AfterBegin(s, id, now), n)
  {
    StandingStill(s, n);
    hide Inv;
    hide PlansMove;
    hide BeginDispatch;
    if BeginDispatch(s, id, now).Done? { BeginKeeps(s, id, now, n); }
  }

  lemma AfterFinishFollows(s: State, id: u64, status: DispatchStatus, now: i64, n: nat)
    requires Inv(s, n)
    ensures Follows(s, AfterFinish(s, id, status, now), n)
  {
    StandingStill(s, n);
    hide Inv;
    hide PlansMove;
    hide FinishDispatch;
    if FinishDispatch(s, id, status, now).Done? { FinishKeeps(s, id, status, now, n); }
  }

  lemma AfterResolveFollows(s: State, d: u64, outcome: Outcome, n: nat)
    requires Inv(s, n)
    ensures Follows(s, AfterResolve(s, d, outcome), n)
  {
    EveryPlanMoves(s.plans);
    ResolveKeeps(s, d, outcome, n);
    ResolveTouchesNoPlan(s, d, outcome);
    hide Inv;
    hide PlansMove;
    hide ResolveCompletion;
  }

  /** Every step keeps the invariant, keeps every plan, and moves each plan legally. */
  lemma StepKeeps(s: State, l: Label, sha: Hash, n: nat)
    requires Inv(s, n) && n < TWO_32
    ensures Follows(s, Step(s, l, sha), n + Weight(l))
  {
    hide Inv;
    hide PlansMove;
    hide Follows;
    hide AfterPlan;
    hide AfterAuthorize;
    hide AfterBegin;
    hide AfterFinish;
    hide AfterResolve;
    hide AfterCancel;
    hide AfterChange;
    hide AfterRestart;
    hide ReportExecution;
    hide InvalidatePlan;
    StandingStill(s, n);
    match l
    case PlanCall(q, cs, now) => AfterPlanFollows(s, q, cs, now, sha, n);
    case AuthorizeCall(id, now) => AfterAuthorizeFollows(s, id, now, n);
    case RevalidateCall(_) =>
    case BeginCall(id, now) => AfterBeginFollows(s, id, now, n);
    case FinishCall(id, status, now) => AfterFinishFollows(s, id, status, now, n);
    case ReportCall(r, now) => ReportKeeps(s, r, now, n);
    case ResolveCall(d, outcome) => AfterResolveFollows(s, d, outcome, n);
    case CancelCall(id, force, now) => CancelKeeps(s, id, force, now, n);
    case InvalidateCall(id, now) => InvalidateKeeps(s, id, now, n);
    case WorldCall(c) => AfterChangeFollows(s, c, n);
    case RestartCall(disk, now) => AfterRestartFollows(s, disk, now, n);
  }
}
