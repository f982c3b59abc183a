/**
 The locked sections of src/planner.cpp as functions on planner states, one per atomic step. A call
 that throws is an error reply and leaves the state alone.
 */
module Lifecycle {
  import opened Integers
  import opened Domain
  import opened Evidence
  import opened Selection
  import opened Planning
  import opened Wording
  import Snapshot
  import Persistence

  datatype Error = NotFound | StaleAuthority | InvalidInput | ResourceExhausted

  datatype Reply<T> = Done(value: T) | Thrown(error: Error)

  // ---- plan -----------------------------------------------------------------------------------

  datatype MadePlan = MadePlan(state: State, decision: Decision, plan: Option<Plan>)

  function Remember(s: State, entry: text): State { s.(history := s.history + [entry]) }

  /** Store the new plan and supersede every older live plan of the same request. */
  function Install(s: State, q: Request, p: Plan, now: i64): State {
    s.(plans := SupersedeOlder(s.plans[p.planId := p], q.requestId, p.planId, now),
       nextPlanId := Next(s.nextPlanId), nextGeneration := Next(s.nextGeneration))
  }

  /** `plan`: no candidates leave no trace; a fallback is stored but its request is not. */
  function MakePlan(s: State, q: Request, cs: seq<Candidate>, now: i64, sha: Hash): MadePlan {
    var d := Decide(cs, q, s.ctx, now);
    if d.outcome.NoCandidates? then MadePlan(s, d, None)
    else if !d.Selects() then MadePlan(Remember(s, HistoryEntry(q, d.outcome)), d, None)
    else
      var p := BuildPlan(s, q, cs[d.ranking[0]], now, sha);
      var s' := Install(s, q, p, now);
      var s'' := if d.outcome.PlanFound? then s'.(requests := s'.requests[q.requestId := q]) else s';
      MadePlan(Remember(s'', HistoryEntryWithPlan(q, d.outcome, p)), d, Some(p))
  }

  // ---- authorize, revalidate ------------------------------------------------------------------

  function SetPlan(s: State, id: u64, p: Plan): State { s.(plans := s.plans[id := p]) }

  function AuthorizePlan(s: State, id: u64, now: i64): Reply<State> {
    if id !in s.plans then Thrown(NotFound)
    else if !AuthorityCurrent(s.plans[id], s.ctx) then Thrown(StaleAuthority)
    else if !ValidTransition(s.plans[id].life, Authorized) then Thrown(InvalidInput)
    else Done(SetPlan(s, id, s.plans[id].(life := Authorized, updatedAt := now)))
  }

  function RevalidatePlan(s: State, id: u64): Reply<Plan> {
    if id !in s.plans then Thrown(NotFound)
    else if !AuthorityCurrent(s.plans[id], s.ctx) then Thrown(StaleAuthority)
    else if s.plans[id].deadline.Violated? then Thrown(StaleAuthority)
    else Done(s.plans[id])
  }

  // ---- dispatch: two sections around the executor call -----------------------------------------

  datatype Dispatch = Dispatch(
    dispatchId: u64, planId: u64, planGeneration: u64, requestId: u64, strategy: Strategy, targetWorker: u64,
    targetBoot: u64, engineIncarnation: u64, stateSource: u64, stateGeneration: u64, attempt: u64, payload: text)

  datatype Begun = Begun(state: State, dispatch: Dispatch)

  /** `dispatch_plan` up to the executor call. The dispatch id is the attempt number of the plan. */
  function BeginDispatch(s: State, id: u64, now: i64): Reply<Begun> {
    if id !in s.plans then Thrown(NotFound)
    else
      var p := s.plans[id];
      if !AuthorityCurrent(p, s.ctx) then Thrown(StaleAuthority)
      else if !p.life.Authorized? then Thrown(if Terminal(p.life) then StaleAuthority else InvalidInput)
      else if !ValidTransition(p.life, Dispatched) then Thrown(InvalidInput)
      else
        var attempt := Next(p.lastAttempt);
        var p' := p.(updatedAt := now, lastAttempt := attempt, life := Dispatched);
        var entry := DispatchEntry(p.planId, p.generation, p.targetBoot);
        Done(Begun(SetPlan(s, id, p').(dispatches := s.dispatches[attempt := entry]),
                   Dispatch(attempt, p.planId, p.generation, p.requestId, p.strategy, p.targetWorker, p.targetBoot,
                            p.engineIncarnation, p.stateSource, p.stateGeneration, attempt, p.payload)))
  }

  datatype DispatchStatus = Accepted | Rejected | Dropped | StatusLost

  /** The plan after the receipt: accepted moves on, anything else fails, a terminal plan stays. */
  function AfterReceipt(p: Plan, status: DispatchStatus, now: i64): Plan {
    var life :=
      if p.life.Dispatched? && status.Accepted? then Executing
      else if !status.Accepted? && ValidTransition(p.life, Failed) then Failed
      else p.life;
    p.(life := life, updatedAt := now)
  }

  /** `dispatch_plan` after the executor call. */
  function FinishDispatch(s: State, id: u64, status: DispatchStatus, now: i64): Reply<State> {
    if id !in s.plans then Thrown(NotFound)
    else Done(SetPlan(s, id, AfterReceipt(s.plans[id], status, now)))
  }

  // ---- reports --------------------------------------------------------------------------------

  datatype Report = Report(planId: u64, planGeneration: u64, reporterBoot: u64, outcome: Outcome)

  /** A report for a live plan: success and failure are published, everything else fails silently. */
  function Reported(p: Plan, outcome: Outcome, now: i64): Plan {
    match outcome
    case Success =>
      if ValidTransition(p.life, Succeeded)
      then p.(life := Succeeded, outcome := Success, published := true, updatedAt := now) else p.(updatedAt := now)
    case Failure =>
      if ValidTransition(p.life, Failed)
      then p.(life := Failed, outcome := Failure, published := true, updatedAt := now) else p.(updatedAt := now)
    case Ambiguous =>
      if ValidTransition(p.life, Failed)
      then p.(life := Failed, outcome := Ambiguous, published := false, updatedAt := now) else p.(updatedAt := now)
    case Unknown =>
      if ValidTransition(p.life, Failed)
      then p.(life := Failed, outcome := Unknown, published := false, updatedAt := now) else p.(updatedAt := now)
    case Withdrawn =>
      if ValidTransition(p.life, Failed)
      then p.(life := Failed, outcome := Withdrawn, published := false, updatedAt := now) else p.(updatedAt := now)
    case OtherOutcome(_) => p.(updatedAt := now)
  }

  /** Whether a report passes the fences of `report_execution`. */
  predicate Admitted(s: State, r: Report) {
    && r.planId in s.plans
    && r.planGeneration == s.plans[r.planId].generation
    && r.reporterBoot == s.plans[r.planId].targetBoot
    && !Terminal(s.plans[r.planId].life)
  }

  function ReportExecution(s: State, r: Report, now: i64): State {
    if !Admitted(s, r) then s else SetPlan(s, r.planId, Reported(s.plans[r.planId], r.outcome, now))
  }

  datatype Resolved = Resolved(state: State, report: Option<Report>)

  /** `on_adapter_completion` up to the unlock: the entry is consumed and becomes a report. */
  function ResolveCompletion(s: State, dispatchId: u64, outcome: Outcome): Resolved {
    if dispatchId !in s.dispatches then Resolved(s, None)
    else
      var e := s.dispatches[dispatchId];
      Resolved(s.(dispatches := s.dispatches - {dispatchId}), Some(Report(e.planId, e.generation, e.targetBoot, outcome)))
  }

  // ---- cancel, invalidate ---------------------------------------------------------------------

  predicate Cancellable(p: Plan, force: bool) {
    var dispatched := p.life.Dispatched? || p.life.Executing?;
    && !p.life.Succeeded?
    && !(dispatched && !force)
    && !(dispatched && force && p.published)
    && ValidTransition(p.life, Cancelled)
  }

  datatype Cancelling = Cancelling(state: State, ok: bool)

  function CancelPlan(s: State, id: u64, force: bool, now: i64): Cancelling {
    if id !in s.plans || !Cancellable(s.plans[id], force) then Cancelling(s, false)
    else Cancelling(SetPlan(s, id, s.plans[id].(life := Cancelled, outcome := Withdrawn, updatedAt := now)), true)
  }

  /** Forcing a cancel makes no difference, in any state: what it would allow is no legal transition. */
  lemma ForceNeverMatters(s: State, id: u64, now: i64)
    ensures CancelPlan(s, id, true, now) == CancelPlan(s, id, false, now)
    ensures CancelPlan(s, id, true, now).ok ==> id in s.plans && !s.plans[id].life.Dispatched? && !s.plans[id].life.Executing?
  {
    if id in s.plans {
      DispatchedCannotBeCancelled(s.plans[id].life);
    }
  }

  function InvalidatePlan(s: State, id: u64, now: i64): State {
    if id !in s.plans || s.plans[id].life.Succeeded? || !ValidTransition(s.plans[id].life, Invalidated) then s
    else SetPlan(s, id, s.plans[id].(life := Invalidated, updatedAt := now))
  }

  // ---- persistence and restart ----------------------------------------------------------------

  /** The key "planner_state". */
  const STATE_KEY: text := Ascii("planner_state")

  ghost function SaveState(s: State, disk: Persistence.Disk): Persistence.Saved {
    Persistence.Save(disk, STATE_KEY, Snapshot.EncodeSnapshot(s))
  }

  /** A new epoch and boot; what was observed dynamically is forgotten. */
  function NewEpoch(s: State): State {
    s.(ctx := s.ctx.(epoch := Next(s.ctx.epoch), plannerBoot := Next(s.ctx.plannerBoot), aliveWorkers := {},
                     resources := map[], recomputeLineage := {}, originalInputs := {}))
  }

  function Invalidate(p: Plan, now: i64): Plan {
    if Terminal(p.life) then p else p.(life := Invalidated, updatedAt := now)
  }

  function InvalidateAll(plans: map<u64, Plan>, now: i64): map<u64, Plan> {
    map k | k in plans :: Invalidate(plans[k], now)
  }

  /** What follows the reload: every live plan is invalidated, and the restart is recorded. */
  function Recover(s: State, now: i64): State {
    Remember(s.(plans := InvalidateAll(s.plans, now)), RestartEntry(s.ctx.epoch, s.ctx.plannerBoot))
  }

  /** The reload, if the store has a readable blob; its result is not looked at. */
  function Reload(s: State, blob: Option<seq<byte>>): State {
    if blob.None? then s else Snapshot.ApplySnapshot(s, blob.value, true).state
  }

  datatype Restarted = Restarted(state: State, disk: Option<Persistence.Disk>)

  /** `restart_coordinator`: save, new epoch, reload, recover. A save that throws ends the call. */
  ghost function RestartCoordinator(s: State, disk: Option<Persistence.Disk>, now: i64): Reply<Restarted> {
    if disk.None? then Done(Restarted(Recover(NewEpoch(s), now), None))
    else
      var saved := SaveState(s, disk.value);
      if saved.TooLarge? then Thrown(ResourceExhausted)
      else
        var reloaded := Reload(NewEpoch(s), Persistence.Load(saved.disk, STATE_KEY));
        Done(Restarted(Recover(reloaded, now), Some(saved.disk)))
  }
}
