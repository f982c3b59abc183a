/** From candidates to a finished recovery: `plan`, `authorize_plan`, and `dispatch_plan` through a reference executor. */
module EndToEnd {
  import opened Integers
  import opened Domain
  import opened Evidence
  import opened Selection
  import opened Planning
  import opened Lifecycle
  import opened Runs
  import Effects
  import Feasibility
  import FeasibilityProofs
  import Persistence
  import Restart
  import SelectionProofs
  import Snapshot
  import SnapshotProofs
  import Wording

  /** The outcome that `ReferenceExecutor` reports for a plan: the registered one, or success. */
  function ReportedOutcome(overrides: map<u64, Outcome>, planId: u64): Outcome {
    if planId in overrides then overrides[planId] else Success
  }

  /** The clock when a dispatch begins, when its completion is reported, and when it finishes. */
  datatype Times = Times(begun: i64, reported: i64, finished: i64)

  /** `on_adapter_completion` with nothing in between: resolve, then report. */
  function Complete(s: State, dispatchId: u64, outcome: Outcome, now: i64): State {
    var r := ResolveCompletion(s, dispatchId, outcome);
    if r.report.None? then r.state else ReportExecution(r.state, r.report.value, now)
  }

  /** `dispatch_plan` through a `ReferenceExecutor` that completes synchronously and accepts. */
  function DispatchThrough(s: State, id: u64, overrides: map<u64, Outcome>, at: Times): Reply<State> {
    var b := BeginDispatch(s, id, at.begun);
    if b.Thrown? then Thrown(b.error)
    else
      var d := b.value.dispatch;
      var s' := Complete(b.value.state, d.dispatchId, ReportedOutcome(overrides, d.planId), at.reported);
      FinishDispatch(s', id, Accepted, at.finished)
  }

  /** How a plan ends when its executor reports `outcome` right away. */
  datatype Ending = Ending(life: Life, outcome: Outcome, published: bool)

  function EndingOf(outcome: Outcome): Ending {
    match outcome
    case Success => Ending(Succeeded, Success, true)
    case Failure => Ending(Failed, Failure, true)
    case OtherOutcome(_) => Ending(Executing, Unknown, false)
    case _ => Ending(Failed, outcome, false)
  }

  // ---- Authorizing a new plan -----------------------------------------------------------------

  /** The stored plan of a decision that selected. */
  lemma MadePlanIsStored(s: State, q: Request, cs: seq<Candidate>, now: i64, sha: Hash)
    requires Decide(cs, q, s.ctx, now).Selects()
    ensures var m := MakePlan(s, q, cs, now, sha);
            && m.plan == Some(BuildPlan(s, q, Selected(cs, q, s.ctx, now), now, sha))
            && m.plan.value.planId in m.state.plans && m.state.plans[m.plan.value.planId] == m.plan.value
            && m.state.ctx == s.ctx
  {
    var p := BuildPlan(s, q, Selected(cs, q, s.ctx, now), now, sha);
    SelectsOnlyFromSome(cs, q, s.ctx, now);
    InstalledKeys(s, q, p, now);
    InstalledRest(s, q, p, now);
    hide Decide;
    hide BuildPlan;
    hide Install;
    hide Wording.HistoryEntryWithPlan;
  }

  /** Whether the target of a candidate is alive under the boot that the candidate names. */
  predicate TargetIsLive(c: Candidate, ctx: Context) {
    ctx.WorkerIsCurrent(c.targetWorker) && ctx.WorkerBootMatches(c.targetWorker, c.targetBoot)
  }

  lemma BuiltPlanIsCurrent(s: State, q: Request, c: Candidate, now: i64, sha: Hash)
    ensures var p := BuildPlan(s, q, c, now, sha);
            && (AuthorityCurrent(p, s.ctx) <==> q.workloadGeneration == s.ctx.workloadGeneration && TargetIsLive(c, s.ctx))
            && p.life.Planned? && p.lastAttempt == 0 && p.planId == s.nextPlanId && p.outcome.Unknown? && !p.published
  {
    hide DecisionDigest;
    hide Wording.Payload;
  }

  /**
   A plan that was just made can be authorized exactly when the workload generation of its request is
   current and the target that the candidate names is alive under the boot that it names. Feasibility
   does not promise that: it looks at the worker and boot that the availability evidence names.
   */
  lemma NewPlanAuthorizes(s: State, q: Request, cs: seq<Candidate>, now: i64, sha: Hash, later: i64)
    requires Decide(cs, q, s.ctx, now).Selects()
    ensures var m := MakePlan(s, q, cs, now, sha);
            && m.plan.Some?
            && (AuthorizePlan(m.state, m.plan.value.planId, later).Done? <==>
                  && q.workloadGeneration == s.ctx.workloadGeneration
                  && TargetIsLive(Selected(cs, q, s.ctx, now), s.ctx))
  {
    hide MakePlan;
    hide Decide;
    hide Selected;
    hide BuildPlan;
    hide AuthorityCurrent;
    hide TargetIsLive;
    MadePlanIsStored(s, q, cs, now, sha);
    BuiltPlanIsCurrent(s, q, Selected(cs, q, s.ctx, now), now, sha);
  }

  /** A feasible candidate whose availability evidence names its own target has a live target. */
  lemma FeasibleTargetIsLive(c: Candidate, q: Request, ctx: Context)
    requires IsFeasible(c, q, ctx) && c.strategy != RECOMPUTE
    requires c.availability.Some? ==>
               c.availability.value.worker == c.targetWorker && c.availability.value.boot == c.targetBoot
    ensures TargetIsLive(c, ctx)
  {
    FeasibilityProofs.FeasibleMeansShown(c, q, ctx);
    hide Feasibility.Evaluate;
    hide FeasibilityProofs.StateShown;
    hide FeasibilityProofs.CompatibilityShown;
    hide FeasibilityProofs.ResourceShown;
    hide FeasibilityProofs.StrategyShown;
  }

  /**
   The order in which candidates are given does not matter, as long as no two share their identity: the
   outcome, the plan with its decision digest, and the whole planner state afterwards are the same.
   */
  lemma PlanIgnoresOrder(s: State, q: Request, cs: seq<Candidate>, ds: seq<Candidate>, now: i64, sha: Hash)
    requires SelectionProofs.Distinct(cs) && multiset(cs) == multiset(ds)
    ensures var m, m' := MakePlan(s, q, cs, now, sha), MakePlan(s, q, ds, now, sha);
            m.state == m'.state && m.plan == m'.plan && m.decision.outcome == m'.decision.outcome
  {
    SelectionProofs.OrderIndependence(cs, ds, q, s.ctx, now);
    hide Decide;
    hide BuildPlan;
    hide Install;
    hide SelectionProofs.Distinct;
    hide Wording.HistoryEntry;
    hide Wording.HistoryEntryWithPlan;
  }

  // ---- Running an authorized plan -------------------------------------------------------------

  /** What is needed of an authorized plan to run: it has not been tried, and its fences hold. */
  predicate ReadyToRun(s: State, id: u64) {
    && id in s.plans
    && s.plans[id].planId == id && s.plans[id].life.Authorized? && s.plans[id].lastAttempt == 0
    && s.plans[id].outcome.Unknown? && !s.plans[id].published
    && AuthorityCurrent(s.plans[id], s.ctx)
  }

  predicate Ended(p: Plan, e: Ending) { p.life == e.life && p.outcome == e.outcome && p.published == e.published }

  lemma BegunIs(s: State, id: u64, now: i64)
    requires ReadyToRun(s, id)
    ensures var b := BeginDispatch(s, id, now);
            && b.Done?
            && b.value.dispatch.dispatchId == 1 && b.value.dispatch.planId == id
            && b.value.state.plans == s.plans[id := s.plans[id].(updatedAt := now, lastAttempt := 1, life := Dispatched)]
            && 1 in b.value.state.dispatches && b.value.state.dispatches[1] == EntryOf(s.plans[id])
  {
    hide AuthorityCurrent;
  }

  lemma CompletedIs(s: State, id: u64, outcome: Outcome, now: i64)
    requires id in s.plans && 1 in s.dispatches && s.dispatches[1] == EntryOf(s.plans[id])
    requires s.plans[id].planId == id && s.plans[id].life.Dispatched? && s.plans[id].outcome.Unknown? && !s.plans[id].published
    ensures Complete(s, 1, outcome, now).plans == s.plans[id := Reported(s.plans[id], outcome, now)]
  {
    hide Reported;
  }

  /** An authorized plan, dispatched through a reference executor, ends as its outcome table says. */
  lemma ReadyPlanRuns(s: State, id: u64, overrides: map<u64, Outcome>, at: Times)
    requires ReadyToRun(s, id)
    ensures var r := DispatchThrough(s, id, overrides, at);
            && r.Done? && id in r.value.plans && Ended(r.value.plans[id], EndingOf(ReportedOutcome(overrides, id)))
            && (id in overrides ==> Ended(r.value.plans[id], EndingOf(overrides[id])))
            && (id !in overrides ==> Ended(r.value.plans[id], Ending(Succeeded, Success, true)))
  {
    var outcome := ReportedOutcome(overrides, id);
    assert id in overrides ==> outcome == overrides[id];
    assert id !in overrides ==> EndingOf(outcome) == Ending(Succeeded, Success, true);
    BegunIs(s, id, at.begun);
    var t := BeginDispatch(s, id, at.begun).value.state;
    var p := s.plans[id].(updatedAt := at.begun, lastAttempt := 1, life := Dispatched);
    assert t.plans[id] == p && EntryOf(p) == EntryOf(s.plans[id]);
    CompletedIs(t, id, outcome, at.reported);
    EndedAfterReceipt(p, outcome, at);
    hide BeginDispatch;
    hide Complete;
    hide Reported;
    hide AfterReceipt;
    hide ReadyToRun;
    hide EndingOf;
    hide ReportedOutcome;
  }

  lemma EndedAfterReceipt(p: Plan, outcome: Outcome, at: Times)
    requires p.life.Dispatched? && p.outcome.Unknown? && !p.published
    ensures Ended(AfterReceipt(Reported(p, outcome, at.reported), Accepted, at.finished), EndingOf(outcome))
  {
  }

  /**
   Whatever the outcome that selected it, a plan whose target is live and whose workload generation is current
   can be authorized, and dispatching it through a reference executor leaves it where the executor's outcome
   table says. That includes a fallback, which the outcome reports as meeting no hard bound.
   */
  lemma SelectedPlanRuns(s: State, q: Request, cs: seq<Candidate>, now: i64, sha: Hash, later: i64,
                         overrides: map<u64, Outcome>, at: Times)
    requires Decide(cs, q, s.ctx, now).Selects()
    requires q.workloadGeneration == s.ctx.workloadGeneration && TargetIsLive(Selected(cs, q, s.ctx, now), s.ctx)
    ensures var m := MakePlan(s, q, cs, now, sha);
            && m.plan.Some?
            && var id := m.plan.value.planId;
               var a := AuthorizePlan(m.state, id, later);
               && a.Done?
               && var r := DispatchThrough(a.value, id, overrides, at);
                  r.Done? && id in r.value.plans && Ended(r.value.plans[id], EndingOf(ReportedOutcome(overrides, id)))
  {
    hide *;
    NewPlanAuthorizes(s, q, cs, now, sha, later);
    MadePlanIsStored(s, q, cs, now, sha);
    BuiltPlanIsCurrent(s, q, Selected(cs, q, s.ctx, now), now, sha);
    var m := MakePlan(s, q, cs, now, sha);
    AuthorizedIsReady(m.state, m.plan.value.planId, later);
    ReadyPlanRuns(AuthorizePlan(m.state, m.plan.value.planId, later).value, m.plan.value.planId, overrides, at);
  }

  /**
   End to end. If the availability evidence names the target of the selected candidate, the strategy is
   not RECOMPUTE and the workload generation is current, then a plan that was found can be authorized,
   and dispatching it through a reference executor leaves it where the executor's outcome table says.
   */
  lemma FoundPlanRuns(s: State, q: Request, cs: seq<Candidate>, now: i64, sha: Hash, later: i64,
                      overrides: map<u64, Outcome>, at: Times)
    requires Decide(cs, q, s.ctx, now).outcome.PlanFound?
    requires var c := Selected(cs, q, s.ctx, now);
             && c.strategy != RECOMPUTE
             && (c.availability.Some? ==>
                   c.availability.value.worker == c.targetWorker && c.availability.value.boot == c.targetBoot)
    requires q.workloadGeneration == s.ctx.workloadGeneration
    ensures var m := MakePlan(s, q, cs, now, sha);
            && m.plan.Some?
            && var id := m.plan.value.planId;
               var a := AuthorizePlan(m.state, id, later);
               && a.Done?
               && var r := DispatchThrough(a.value, id, overrides, at);
                  r.Done? && id in r.value.plans && Ended(r.value.plans[id], EndingOf(ReportedOutcome(overrides, id)))
  {
    var c := Selected(cs, q, s.ctx, now);
    SelectionProofs.WinnerIsBest(cs, q, s.ctx, now);
    WinnerIsFeasible(c, cs, q, s.ctx, now);
    hide *;
    FeasibleTargetIsLive(c, q, s.ctx);
    SelectedPlanRuns(s, q, cs, now, sha, later, overrides, at);
  }

  /** `k` was superseded if it was a live plan of the request, and is as before if not. */
  predicate SupersededIfRival(p: Plan, after: Plan, requestId: u64, now: i64) {
    after == if p.requestId == requestId && !Terminal(p.life) then p.(life := Superseded, updatedAt := now) else p
  }

  /** What a selection does to the planner: the new plan, the older ones, the request, the counters, the history. */
  predicate TakesOver(s: State, t: State, q: Request, p: Plan, recorded: bool, now: i64) {
    && p.planId == s.nextPlanId && p.planId !in s.plans
    && t.plans.Keys == s.plans.Keys + {p.planId} && t.plans[p.planId] == p
    && (forall k :: k in s.plans ==> SupersededIfRival(s.plans[k], t.plans[k], q.requestId, now))
    && t.requests == (if recorded then s.requests[q.requestId := q] else s.requests)
    && t.ctx == s.ctx && t.dispatches == s.dispatches
    && t.nextPlanId == s.nextPlanId + 1 && t.nextGeneration == s.nextGeneration + 1
    && |t.history| == |s.history| + 1 && s.history <= t.history
  }

  /**
   Whenever `plan` selects a candidate, its plan carries it field by field and takes over: it is stored as the live
   plan of the request, the one that was live, executing or not, is superseded, and the request is recorded exactly
   when the outcome is PLAN_FOUND.
   */
  lemma SelectionTakesOver(s: State, q: Request, cs: seq<Candidate>, now: i64, sha: Hash, n: nat)
    requires Inv(s, n) && n < TWO_32
    requires Decide(cs, q, s.ctx, now).Selects()
    ensures var d := Decide(cs, q, s.ctx, now);
            var m := MakePlan(s, q, cs, now, sha);
            && m.plan.Some? && Effects.Carries(m.plan.value, s, q, Selected(cs, q, s.ctx, now), now)
            && TakesOver(s, m.state, q, m.plan.value, d.outcome.PlanFound?, now)
  {
    hide *;
    var c := Selected(cs, q, s.ctx, now);
    var p := BuildPlan(s, q, c, now, sha);
    var d := Decide(cs, q, s.ctx, now);
    MadePlanIs(s, q, cs, now, sha);
    BuiltPlanIsFresh(s, q, c, now, sha, n);
    Effects.BuiltPlanCarries(s, q, c, now, sha);
    InstalledTakesOver(s, q, p, now, n);
    RememberedTakesOver(s, Install(s, q, p, now), q, p, d.outcome.PlanFound?, Wording.HistoryEntryWithPlan(q, d.outcome, p), now);
  }

  lemma BuiltPlanIsFresh(s: State, q: Request, c: Candidate, now: i64, sha: Hash, n: nat)
    requires Inv(s, n) && n < TWO_32
    ensures Fresh(s, BuildPlan(s, q, c, now, sha))
  {
    BuiltPlanOk(s, q, c, now, sha, n);
    hide PlanOk;
    hide BuildPlan;
  }

  /** What is left to say of a state in which a plan has been installed. */
  predicate Installed(s: State, t: State, q: Request, p: Plan, now: i64) {
    && p.planId == s.nextPlanId && p.planId !in s.plans
    && t.plans.Keys == s.plans.Keys + {p.planId} && t.plans[p.planId] == p
    && (forall k :: k in s.plans ==> SupersededIfRival(s.plans[k], t.plans[k], q.requestId, now))
    && t == s.(plans := t.plans, nextPlanId := t.nextPlanId, nextGeneration := t.nextGeneration)
    && t.nextPlanId == s.nextPlanId + 1 && t.nextGeneration == s.nextGeneration + 1
  }

  lemma InstalledTakesOver(s: State, q: Request, p: Plan, now: i64, n: nat)
    requires Inv(s, n) && n < TWO_32 && Fresh(s, p)
    ensures Installed(s, Install(s, q, p, now), q, p, now)
  {
    FreshIsNew(s, p, n);
    InstalledKeys(s, q, p, now);
    InstalledRest(s, q, p, now);
    var t := Install(s, q, p, now);
    assert s.nextPlanId == s.nextGeneration <= 1 + n;
    hide Install;
    hide SupersededBy;
    hide SupersededIfRival;
    hide PlanOk;
    hide Fresh;
    forall k | k in s.plans ensures SupersededIfRival(s.plans[k], t.plans[k], q.requestId, now) {
      assert PlanOk(s.plans[k], k, s.ctx.epoch, s.ctx.plannerBoot, s.nextPlanId);
      OlderPlan(s.plans[k], k, s.ctx.epoch, s.ctx.plannerBoot, s.nextPlanId, q.requestId, p.planId, now);
    }
    hide Inv;
  }

  lemma RememberedTakesOver(s: State, t: State, q: Request, p: Plan, recorded: bool, entry: text, now: i64)
    requires Installed(s, t, q, p, now)
    ensures var t' := if recorded then t.(requests := t.requests[q.requestId := q]) else t;
            TakesOver(s, Remember(t', entry), q, p, recorded, now)
  {
    hide SupersededIfRival;
  }

  /**
   Plan ids are counted in memory only. A planner that has loaded plans can therefore be about to give one of their
   ids away: the next plan it makes replaces the loaded one, of whatever request, and whatever its state.
   */
  lemma LoadedPlanIsOverwritten(s: State, q: Request, cs: seq<Candidate>, now: i64, sha: Hash)
    requires Decide(cs, q, s.ctx, now).Selects() && s.nextPlanId in s.plans
    ensures var m := MakePlan(s, q, cs, now, sha);
            && m.state.plans.Keys == s.plans.Keys
            && m.state.plans[s.nextPlanId].requestId == q.requestId && m.state.plans[s.nextPlanId].life.Planned?
            && m.state.plans[s.nextPlanId].generation == s.nextGeneration && m.state.plans[s.nextPlanId].lastAttempt == 0
  {
    hide *;
    var c := Selected(cs, q, s.ctx, now);
    var p := BuildPlan(s, q, c, now, sha);
    MadePlanIs(s, q, cs, now, sha);
    MadePlanIsStored(s, q, cs, now, sha);
    Effects.BuiltPlanCarries(s, q, c, now, sha);
    CarriedFields(p, s, q, c, now);
    InstalledKeys(s, q, p, now);
    RememberedKeys(Install(s, q, p, now), q, Decide(cs, q, s.ctx, now).outcome.PlanFound?,
                   Wording.HistoryEntryWithPlan(q, Decide(cs, q, s.ctx, now).outcome, p));
  }

  /**
   A planner that has just been started on the store of another one, and whatever it has learnt of the world since: the
   first plan it makes has the id 1, and takes the place of plan 1 of the other.
   */
  lemma FreshPlannerReplacesFirstPlan(s: State, d: Persistence.Disk, ctx: Context, q: Request, cs: seq<Candidate>,
                                      now: i64, sha: Hash)
    requires SnapshotProofs.Countable(s) && SnapshotProofs.WellKeyed(s) && SnapshotProofs.Persistable(s)
    requires SaveState(s, d).Saved? && 1 in s.plans
    requires Decide(cs, q, ctx, now).Selects()
    ensures var blob := Persistence.Load(SaveState(s, d).disk, STATE_KEY);
            && blob.Some?
            && var loaded := Snapshot.ApplySnapshot(INITIAL, blob.value, false).state;
               && 1 in loaded.plans && loaded.plans[1] == Snapshot.DurablePlan(s.plans[1])
               && var after := MakePlan(loaded.(ctx := ctx), q, cs, now, sha).state;
                  && after.plans.Keys == s.plans.Keys
                  && after.plans[1].requestId == q.requestId && after.plans[1].life.Planned? && after.plans[1].generation == 1
  {
    InitialCounters();
    DurablePlanAt(s, 1);
    hide *;
    Restart.SavedStateIsLoaded(s, INITIAL, d);
    var loaded := Snapshot.ApplySnapshot(INITIAL, Persistence.Load(SaveState(s, d).disk, STATE_KEY).value, false).state;
    LoadedPlanIsOverwritten(loaded.(ctx := ctx), q, cs, now, sha);
  }

  /**
   A snapshot does not hold deadlines: once loaded, a plan is revalidated exactly when its fences match, also if its
   deadline was violated when it was made.
   */
  lemma LoadedPlanRevalidates(s: State, t: State, d: Persistence.Disk, ctx: Context, id: u64)
    requires SnapshotProofs.Countable(s) && SnapshotProofs.WellKeyed(s) && SnapshotProofs.Persistable(s)
    requires SaveState(s, d).Saved? && id in s.plans
    ensures var blob := Persistence.Load(SaveState(s, d).disk, STATE_KEY);
            && blob.Some?
            && var loaded := Snapshot.ApplySnapshot(t, blob.value, false).state.(ctx := ctx);
               RevalidatePlan(loaded, id).Done? <==> Effects.FencesMatch(s.plans[id], ctx)
  {
    DurablePlanAt(s, id);
    hide *;
    Restart.SavedStateIsLoaded(s, t, d);
    var loaded := Snapshot.ApplySnapshot(t, Persistence.Load(SaveState(s, d).disk, STATE_KEY).value, false).state.(ctx := ctx);
    Effects.RevalidateMeans(loaded, id);
    SameFences(s.plans[id], loaded.plans[id], ctx);
  }

  lemma SameFences(p: Plan, r: Plan, ctx: Context)
    requires r == Snapshot.DurablePlan(p)
    ensures Effects.FencesMatch(p, ctx) <==> Effects.FencesMatch(r, ctx)
    ensures r.deadline == NotKnown
  {
  }

  lemma InitialCounters()
    ensures INITIAL.nextPlanId == 1 && INITIAL.nextGeneration == 1
  {
  }

  lemma DurablePlanAt(s: State, id: u64)
    ensures SnapshotProofs.DurablePlans(s).Keys == s.plans.Keys
    ensures id in s.plans ==> SnapshotProofs.DurablePlans(s)[id] == Snapshot.DurablePlan(s.plans[id])
  {
  }

  lemma CarriedFields(p: Plan, s: State, q: Request, c: Candidate, now: i64)
    requires Effects.Carries(p, s, q, c, now)
    ensures p.planId == s.nextPlanId && p.generation == s.nextGeneration && p.requestId == q.requestId
    ensures p.life.Planned? && p.lastAttempt == 0
  {
  }

  lemma RememberedKeys(t: State, q: Request, recorded: bool, entry: text)
    ensures Remember(if recorded then t.(requests := t.requests[q.requestId := q]) else t, entry).plans == t.plans
  {
  }

  /** `plan` without a selection: no candidates leave no trace, infeasible ones only a history entry. */
  lemma NoSelectionMeans(s: State, q: Request, cs: seq<Candidate>, now: i64, sha: Hash)
    requires forall c :: c in cs ==> !IsFeasible(c, q, s.ctx)
    ensures var m := MakePlan(s, q, cs, now, sha);
            && m.plan == None
            && (cs == [] ==> m.state == s)
            && (cs != [] ==> m.state == s.(history := m.state.history)
                             && |m.state.history| == |s.history| + 1 && s.history <= m.state.history)
  {
    SelectionProofs.OutcomeMeans(cs, q, s.ctx, now);
    hide Decide;
    hide IsFeasible;
    hide Eligible;
    hide BuildPlan;
    hide Install;
    hide Wording.HistoryEntry;
    hide Wording.HistoryEntryWithPlan;
  }

  /**
   A fallback takes over as well: it meets no hard bound, yet its plan is stored as the live plan of the request and
   every plan that was live is superseded, dispatched and executing ones too.
   */
  lemma FallbackTakesOver(s: State, q: Request, cs: seq<Candidate>, now: i64, sha: Hash, n: nat)
    requires Inv(s, n) && n < TWO_32
    requires var d := Decide(cs, q, s.ctx, now); d.Selects() && !d.outcome.PlanFound?
    ensures var m := MakePlan(s, q, cs, now, sha);
            && m.plan.Some? && TakesOver(s, m.state, q, m.plan.value, false, now)
            && forall c :: c in cs && IsFeasible(c, q, s.ctx) ==> !MeetsBounds(c, q, now)
  {
    hide *;
    SelectionTakesOver(s, q, cs, now, sha, n);
    SelectionProofs.FallbackIsBest(cs, q, s.ctx, now);
  }

  lemma OlderPlan(p: Plan, key: u64, epoch: u64, boot: u64, next: u64, requestId: u64, keep: u64, now: i64)
    requires PlanOk(p, key, epoch, boot, next) && key != keep
    ensures SupersededIfRival(p, SupersededBy(p, requestId, keep, now), requestId, now)
  {
  }

  /** What `plan` stores when it selects. */
  lemma MadePlanIs(s: State, q: Request, cs: seq<Candidate>, now: i64, sha: Hash)
    requires Decide(cs, q, s.ctx, now).Selects()
    ensures var d := Decide(cs, q, s.ctx, now);
            var p := BuildPlan(s, q, Selected(cs, q, s.ctx, now), now, sha);
            var m := MakePlan(s, q, cs, now, sha);
            var s' := Install(s, q, p, now);
            && m.plan == Some(p)
            && m.state == Remember(if d.outcome.PlanFound? then s'.(requests := s'.requests[q.requestId := q]) else s',
                                   Wording.HistoryEntryWithPlan(q, d.outcome, p))
  {
    SelectsOnlyFromSome(cs, q, s.ctx, now);
    hide Decide;
    hide BuildPlan;
    hide Install;
    hide Wording.HistoryEntryWithPlan;
  }

  lemma WinnerIsFeasible(c: Candidate, cs: seq<Candidate>, q: Request, ctx: Context, now: i64)
    requires SelectionProofs.BestOf(c, cs, EligibleUnder(q, ctx, now))
    ensures IsFeasible(c, q, ctx)
  {
    hide IsFeasible;
    hide MeetsBounds;
  }

  lemma AuthorizedIsReady(s: State, id: u64, now: i64)
    requires AuthorizePlan(s, id, now).Done?
    requires s.plans[id].planId == id && s.plans[id].lastAttempt == 0 && s.plans[id].outcome.Unknown? && !s.plans[id].published
    ensures ReadyToRun(AuthorizePlan(s, id, now).value, id)
  {
  }
}
