/**
 The objects: `RecoveryPlanner` with the fields of its `Impl`, and `ReferenceExecutor`. Every public method is
 proved against the functions of modules Lifecycle and EndToEnd on the abstract state. A clock reading is a
 parameter; `Reply` stands for returning or throwing.
 */
module Planner {
  import opened Integers
  import opened Domain
  import opened Evidence
  import opened Selection
  import opened Planning
  import opened Lifecycle
  import opened ByteStreams
  import opened SelectionLoops
  import opened SnapshotStreams
  import Codec
  import EndToEnd
  import Persistence
  import Snapshot
  import Wording

  class RecoveryPlanner {
    const sha: Hash
    const store: Persistence.PersistenceStore?
    var ctx: Context
    var plans: map<u64, Domain.Plan>
    var requests: map<u64, Request>
    var dispatches: map<u64, DispatchEntry>
    var history: seq<text>
    var nextPlanId: u64
    var nextGeneration: u64

    /** The abstract value of the planner. */
    function Abstract(): State
      reads this
    {
      State(ctx, plans, requests, dispatches, history, nextPlanId, nextGeneration)
    }

    ghost function Disk(): Option<Persistence.Disk>
      reads this, store
    {
      if store == null then None else Some(store.disk)
    }

    constructor (hash: Hash, backing: Persistence.PersistenceStore?)
      ensures Abstract() == INITIAL && sha == hash && store == backing
    {
      sha, store := hash, backing;
      ctx := Context(1, 1, 1, 1, 1, 1, 1, map[], {}, map[], map[], {}, {});
      plans, requests, dispatches, history := map[], map[], map[], [];
      nextPlanId, nextGeneration := 1, 1;
    }

    // ---- Planning -----------------------------------------------------------------------------

    method Digest(q: Request, c: Candidate) returns (digest: text)
      ensures digest == DecisionDigest(q, c, ctx, sha)
    {
      ghost var rest := Codec.U64s([c.candidateId, c.generation, c.targetWorker, c.targetBoot, c.stateSource, c.stateGeneration,
                                    ctx.policyGeneration, ctx.compatibilityGeneration, ctx.resourceGeneration], Codec.End);
      assert DigestInput(q, c, ctx) ==
             Codec.U64s([q.requestId, q.workload, q.workloadGeneration, q.execution, q.failure, ctx.epoch],
                        Codec.Then(Codec.U8(c.strategy), rest));
      assert Codec.Encode(Codec.End) == [] && [] + Codec.Encode(DigestInput(q, c, ctx)) == Codec.Encode(DigestInput(q, c, ctx));
      hide Codec.Encode;
      hide Codec.U64s;
      hide Codec.TokenBytes;
      hide DigestInput;
      var w := new ByteWriter();
      PutU64s(w, [q.requestId, q.workload, q.workloadGeneration, q.execution, q.failure, ctx.epoch], Codec.Then(Codec.U8(c.strategy), rest));
      Encodes(Codec.U8(c.strategy), rest, w.buf);
      w.PutU8(c.strategy);
      PutU64s(w, [c.candidateId, c.generation, c.targetWorker, c.targetBoot, c.stateSource, c.stateGeneration,
                  ctx.policyGeneration, ctx.compatibilityGeneration, ctx.resourceGeneration], Codec.End);
      assert w.buf + [] == w.buf;
      digest := Wording.Hex(sha(w.buf));
    }

    method Build(q: Request, c: Candidate, now: i64) returns (p: Domain.Plan)
      modifies this`nextPlanId, this`nextGeneration
      ensures p == BuildPlan(old(Abstract()), q, c, now, sha)
      ensures nextPlanId == Next(old(nextPlanId)) && nextGeneration == Next(old(nextGeneration))
    {
      var digest := Digest(q, c);
      hide DecisionDigest;
      hide Wording.Payload;
      p := Domain.Plan(nextPlanId, nextGeneration, q.requestId, q.workload, c.strategy, c.candidateId, c.generation,
                       c.targetWorker, c.targetBoot, c.targetEngine, c.engineIncarnation, c.stateSource, c.stateGeneration,
                       c.checkpointSource,
                       Authority(ctx.epoch, ctx.plannerBoot, q.requestId, nextGeneration, c.generation, c.targetBoot,
                                 c.engineIncarnation, c.stateGeneration, ctx.compatibilityGeneration, ctx.resourceGeneration,
                                 ctx.policyGeneration, ctx.topologyGeneration, q.workloadGeneration),
                       Planned, Unknown, false, now, now, 0, Wording.Payload(c), digest,
                       Economics.EvaluateDeadline(c, q, now).outcome);
      nextPlanId, nextGeneration := Next(nextPlanId), Next(nextGeneration);
    }

    /** The loop of `supersede_older` over all plans; their order does not matter. */
    method Supersede(requestId: u64, keep: u64, now: i64)
      modifies this`plans
      ensures plans == SupersedeOlder(old(plans), requestId, keep, now)
    {
      hide ValidTransition;
      hide Terminal;
      ghost var before := plans;
      var todo := plans.Keys;
      while todo != {}
        invariant todo <= before.Keys == plans.Keys
        invariant forall k :: k in before ==> plans[k] == if k in todo then before[k] else SupersededBy(before[k], requestId, keep, now)
        decreases |todo|
      {
        var k: u64 :| k in todo;
        var p := plans[k];
        if p.planId != keep && p.requestId == requestId && !Terminal(p.life) {
          if ValidTransition(p.life, Superseded) {
            plans := plans[k := p.(life := Superseded, updatedAt := now)];
          }
        }
        todo := todo - {k};
      }
    }

    /** `plan`: the decision, the plan if one was made, and the rank of every candidate. */
    method MakePlan(q: Request, cs: seq<Candidate>, now: i64)
      returns (d: Decision, p: Option<Domain.Plan>, ranks: seq<nat>)
      modifies this
      ensures var m := Lifecycle.MakePlan(old(Abstract()), q, cs, now, sha);
              Abstract() == m.state && d == m.decision && p == m.plan
      ensures |ranks| == |cs| && forall i :: 0 <= i < |cs| ==> ranks[i] == RankOf(d.ranking, i)
    {
      hide Decide;
      hide BuildPlan;
      hide SupersedeOlder;
      hide Wording.HistoryEntry;
      hide Wording.HistoryEntryWithPlan;
      d, ranks := DecideOn(cs, q, ctx, now);
      p := None;
      if d.outcome.NoCandidates? {
        return;
      }
      if d.ranking == [] {
        history := history + [Wording.HistoryEntry(q, d.outcome)];
        return;
      }
      var built := Build(q, cs[d.ranking[0]], now);
      plans := plans[built.planId := built];
      if d.outcome.PlanFound? {
        requests := requests[q.requestId := q];
      }
      Supersede(q.requestId, built.planId, now);
      history := history + [Wording.HistoryEntryWithPlan(q, d.outcome, built)];
      p := Some(built);
    }

    // ---- Authorize, revalidate ----------------------------------------------------------------

    method AuthorizePlan(id: u64, now: i64) returns (r: Reply<Domain.Plan>)
      modifies this`plans
      ensures var a := Lifecycle.AuthorizePlan(old(Abstract()), id, now);
              && (r.Done? <==> a.Done?)
              && (a.Done? ==> Abstract() == a.value && r == Done(a.value.plans[id]))
              && (a.Thrown? ==> Abstract() == old(Abstract()) && r == Thrown(a.error))
    {
      hide AuthorityCurrent;
      hide ValidTransition;
      if id !in plans {
        return Thrown(NotFound);
      }
      var stored := plans[id];
      if !AuthorityCurrent(stored, ctx) {
        return Thrown(StaleAuthority);
      }
      if !ValidTransition(stored.life, Authorized) {
        return Thrown(InvalidInput);
      }
      stored := stored.(life := Authorized, updatedAt := now);
      plans := plans[id := stored];
      r := Done(stored);
    }

    method RevalidatePlan(id: u64) returns (r: Reply<Domain.Plan>)
      ensures r == Lifecycle.RevalidatePlan(Abstract(), id)
    {
      if id !in plans {
        return Thrown(NotFound);
      }
      var stored := plans[id];
      if !AuthorityCurrent(stored, ctx) {
        return Thrown(StaleAuthority);
      }
      if stored.deadline.Violated? {
        return Thrown(StaleAuthority);
      }
      r := Done(stored);
    }

    // ---- Dispatch -----------------------------------------------------------------------------

    /** `dispatch_plan` before the lock is released. */
    method BeginDispatch(id: u64, now: i64) returns (r: Reply<Dispatch>)
      modifies this`plans, this`dispatches
      ensures var b := Lifecycle.BeginDispatch(old(Abstract()), id, now);
              && (r.Done? <==> b.Done?)
              && (b.Done? ==> Abstract() == b.value.state && r == Done(b.value.dispatch))
              && (b.Thrown? ==> Abstract() == old(Abstract()) && r == Thrown(b.error))
    {
      hide AuthorityCurrent;
      if id !in plans {
        return Thrown(NotFound);
      }
      var stored := plans[id];
      if !AuthorityCurrent(stored, ctx) {
        return Thrown(StaleAuthority);
      }
      if !stored.life.Authorized? {
        if Terminal(stored.life) {
          return Thrown(StaleAuthority);
        }
        return Thrown(InvalidInput);
      }
      if !ValidTransition(stored.life, Dispatched) {
        return Thrown(InvalidInput);
      }
      stored := stored.(updatedAt := now, lastAttempt := Next(stored.lastAttempt));
      var dispatch := Dispatch(stored.lastAttempt, stored.planId, stored.generation, stored.requestId, stored.strategy,
                               stored.targetWorker, stored.targetBoot, stored.engineIncarnation, stored.stateSource,
                               stored.stateGeneration, stored.lastAttempt, stored.payload);
      stored := stored.(life := Dispatched);
      plans := plans[id := stored];
      dispatches := dispatches[dispatch.dispatchId := DispatchEntry(stored.planId, stored.generation, stored.targetBoot)];
      r := Done(dispatch);
    }

    /** `dispatch_plan` after the executor call, under the lock again. */
    method FinishDispatch(id: u64, status: DispatchStatus, now: i64) returns (r: Reply<Domain.Plan>)
      modifies this`plans
      ensures var f := Lifecycle.FinishDispatch(old(Abstract()), id, status, now);
              && (r.Done? <==> f.Done?)
              && (f.Done? ==> Abstract() == f.value && r == Done(f.value.plans[id]))
              && (f.Thrown? ==> Abstract() == old(Abstract()) && r == Thrown(f.error))
    {
      if id !in plans {
        return Thrown(NotFound);
      }
      var stored := plans[id];
      if stored.life.Dispatched? && status.Accepted? {
        if ValidTransition(stored.life, Executing) {
          stored := stored.(life := Executing);
        }
      } else if !status.Accepted? {
        if ValidTransition(stored.life, Failed) {
          stored := stored.(life := Failed);
        }
      }
      stored := stored.(updatedAt := now);
      plans := plans[id := stored];
      r := Done(stored);
    }

    /** `dispatch_plan` as a whole, through an executor that is wired back to this planner or to nothing. */
    method DispatchPlan(id: u64, executor: ReferenceExecutor, at: EndToEnd.Times) returns (r: Reply<Domain.Plan>)
      requires executor.listener == null || executor.listener == this
      modifies this, executor`dispatched
      ensures executor.listener == this ==>
                var f := EndToEnd.DispatchThrough(old(Abstract()), id, executor.overrides, at);
                && (r.Done? <==> f.Done?)
                && (f.Done? ==> Abstract() == f.value && r == Done(f.value.plans[id]))
                && (f.Thrown? ==> r == Thrown(f.error))
      ensures var b := Lifecycle.BeginDispatch(old(Abstract()), id, at.begun);
              executor.listener == null && b.Done? ==>
                var f := Lifecycle.FinishDispatch(b.value.state, id, Accepted, at.finished);
                && (f.Done? ==> Abstract() == f.value && r == Done(f.value.plans[id]))
                && (f.Thrown? ==> r == Thrown(f.error))
      ensures Lifecycle.BeginDispatch(old(Abstract()), id, at.begun).Thrown? ==>
                Abstract() == old(Abstract()) && executor.dispatched == old(executor.dispatched)
      ensures Lifecycle.BeginDispatch(old(Abstract()), id, at.begun).Done? ==>
                executor.dispatched == old(executor.dispatched) + 1
    {
      var begun := BeginDispatch(id, at.begun);
      hide Lifecycle.BeginDispatch;
      hide Lifecycle.FinishDispatch;
      hide EndToEnd.Complete;
      hide EndToEnd.ReportedOutcome;
      if begun.Thrown? {
        return Thrown(begun.error);
      }
      var status := executor.Execute(begun.value, at.reported);
      r := FinishDispatch(id, status, at.finished);
    }

    // ---- Reports ------------------------------------------------------------------------------

    method ReportExecution(report: Report, now: i64)
      modifies this`plans
      ensures Abstract() == Lifecycle.ReportExecution(old(Abstract()), report, now)
    {
      if report.planId !in plans {
        return;
      }
      var p := plans[report.planId];
      if report.planGeneration != p.generation {
        return;
      }
      if report.reporterBoot != p.targetBoot {
        return;
      }
      if Terminal(p.life) {
        return;
      }
      match report.outcome {
        case Success =>
          if ValidTransition(p.life, Succeeded) {
            p := p.(life := Succeeded, outcome := Success, published := true);
          }
        case Failure =>
          if ValidTransition(p.life, Failed) {
            p := p.(life := Failed, outcome := Failure, published := true);
          }
        case Ambiguous =>
          if ValidTransition(p.life, Failed) {
            p := p.(life := Failed, outcome := Ambiguous, published := false);
          }
        case Unknown =>
          if ValidTransition(p.life, Failed) {
            p := p.(life := Failed, outcome := Unknown, published := false);
          }
        case Withdrawn =>
          if ValidTransition(p.life, Failed) {
            p := p.(life := Failed, outcome := Withdrawn, published := false);
          }
        case OtherOutcome(_) =>
      }
      plans := plans[report.planId := p.(updatedAt := now)];
    }

    /** `on_adapter_completion` up to the unlock. */
    method ResolveCompletion(dispatchId: u64, outcome: Outcome) returns (report: Option<Report>)
      modifies this`dispatches
      ensures Resolved(Abstract(), report) == Lifecycle.ResolveCompletion(old(Abstract()), dispatchId, outcome)
    {
      if dispatchId !in dispatches {
        return None;
      }
      var meta := dispatches[dispatchId];
      report := Some(Report(meta.planId, meta.generation, meta.targetBoot, outcome));
      dispatches := dispatches - {dispatchId};
    }

    method OnAdapterCompletion(dispatchId: u64, outcome: Outcome, now: i64)
      modifies this`plans, this`dispatches
      ensures Abstract() == EndToEnd.Complete(old(Abstract()), dispatchId, outcome, now)
    {
      var report := ResolveCompletion(dispatchId, outcome);
      hide Lifecycle.ResolveCompletion;
      hide Lifecycle.ReportExecution;
      if report.Some? {
        ReportExecution(report.value, now);
      }
    }

    // ---- Cancel, invalidate -------------------------------------------------------------------

    method CancelPlan(id: u64, force: bool, now: i64) returns (ok: bool)
      modifies this`plans
      ensures Cancelling(Abstract(), ok) == Lifecycle.CancelPlan(old(Abstract()), id, force, now)
    {
      if id !in plans {
        return false;
      }
      var p := plans[id];
      if p.life.Succeeded? {
        return false;
      }
      var dispatched := p.life.Dispatched? || p.life.Executing?;
      if dispatched && !force {
        return false;
      }
      if dispatched && force && p.published {
        return false;
      }
      if ValidTransition(p.life, Cancelled) {
        plans := plans[id := p.(life := Cancelled, outcome := Withdrawn, updatedAt := now)];
        return true;
      }
      ok := false;
    }

    method InvalidatePlan(id: u64, now: i64)
      modifies this`plans
      ensures Abstract() == Lifecycle.InvalidatePlan(old(Abstract()), id, now)
    {
      if id !in plans {
        return;
      }
      var p := plans[id];
      if p.life.Succeeded? {
        return;
      }
      if ValidTransition(p.life, Invalidated) {
        plans := plans[id := p.(life := Invalidated, updatedAt := now)];
      }
    }

    // ---- The world ----------------------------------------------------------------------------

    method RegisterWorker(w: u64, boot: u64)
      modifies this`ctx
      ensures Abstract() == old(Abstract()).(ctx := old(ctx).RegisterWorker(w, boot))
      ensures ctx.WorkerIsCurrent(w) && ctx.WorkerBootMatches(w, boot)
    {
      ctx := ctx.(workerBoots := ctx.workerBoots[w := boot], aliveWorkers := ctx.aliveWorkers + {w});
    }

    method UnregisterWorker(w: u64)
      modifies this`ctx
      ensures Abstract() == old(Abstract()).(ctx := old(ctx).UnregisterWorker(w))
      ensures !ctx.WorkerIsCurrent(w) && ctx.workerBoots == old(ctx).workerBoots
    {
      ctx := ctx.(aliveWorkers := ctx.aliveWorkers - {w});
    }

    method SetResource(kind: text, amount: u64)
      modifies this`ctx
      ensures Abstract() == old(Abstract()).(ctx := old(ctx).SetResource(kind, amount))
    {
      ctx := ctx.(resources := ctx.resources[kind := amount]);
    }

    method SetRecomputeAvailable(generation: u64, available: bool)
      modifies this`ctx
      ensures Abstract() == old(Abstract()).(ctx := old(ctx).SetRecompute(generation, available))
      ensures ctx.RecomputeAvailable(generation) == available
    {
      if available {
        ctx := ctx.(recomputeLineage := ctx.recomputeLineage + {generation}, originalInputs := ctx.originalInputs + {generation});
      } else {
        ctx := ctx.(recomputeLineage := ctx.recomputeLineage - {generation}, originalInputs := ctx.originalInputs - {generation});
      }
    }

    // ---- Snapshots and the store ----------------------------------------------------------------

    /** `apply_snapshot`: fields change as they are read, also when a later read fails. */
    method ApplySnapshot(bytes: seq<byte>, preserve: bool) returns (ok: bool)
      modifies this`ctx, this`requests, this`plans, this`history
      ensures var a := Snapshot.ApplySnapshot(old(Abstract()), bytes, preserve);
              Abstract() == a.state && ok == a.ok
    {
      hide Codec.ReadU32;
      hide Codec.ReadU64s;
      hide Codec.ReadStrs;
      hide Snapshot.ReadWorkers;
      hide Snapshot.ReadRequests;
      hide Snapshot.ReadPlans;
      var r := new ByteReader(bytes);
      var version := r.GetU32();
      if version != Snapshot.FORMAT_VERSION || r.failed {
        return false;
      }
      var g := r.GetU64s(7);
      ctx := Snapshot.WithGenerations(ctx, g, preserve);
      if r.failed {
        return false;
      }
      var workerCount := r.GetU32();
      var boots := GetWorkers(r, workerCount);
      ctx := ctx.(workerBoots := boots, aliveWorkers := {});
      var requestCount := r.GetU32();
      var done, qs := GetRequests(r, requestCount);
      requests := qs;
      if !done {
        return false;
      }
      var planCount := r.GetU32();
      var done', ps := GetPlans(r, planCount);
      plans := ps;
      if !done' {
        return false;
      }
      var historyCount := r.GetU32();
      var xs := r.GetStrings(historyCount);
      history := xs;
      ok := !r.failed;
    }

    /** `save_state`: false without a store; the store may throw. */
    method SaveState() returns (r: Reply<bool>)
      modifies store
      ensures store == null ==> r == Done(false)
      ensures store != null ==>
                var saved := Lifecycle.SaveState(Abstract(), old(store.disk));
                && (saved.Saved? ==> r == Done(true) && store.disk == saved.disk)
                && (saved.TooLarge? ==> r == Thrown(ResourceExhausted) && store.disk == old(store.disk))
    {
      if store == null {
        return Done(false);
      }
      var bytes := WriteSnapshot(Abstract());
      hide Snapshot.EncodeSnapshot;
      hide Persistence.Save;
      var ok := store.SaveBlob(STATE_KEY, bytes);
      r := if ok then Done(true) else Thrown(ResourceExhausted);
    }

    /** `load_state`: the result of the decoding is not looked at. */
    method LoadState() returns (ok: bool)
      modifies this`ctx, this`requests, this`plans, this`history
      ensures ok <==> store != null
      ensures store != null ==>
                var blob := Persistence.Load(store.disk, STATE_KEY);
                Abstract() == if blob.Some? then Snapshot.ApplySnapshot(old(Abstract()), blob.value, false).state else old(Abstract())
      ensures store == null ==> Abstract() == old(Abstract())
    {
      hide Persistence.Load;
      hide Snapshot.ApplySnapshot;
      if store == null {
        return false;
      }
      var blob := store.LoadBlob(STATE_KEY);
      if blob.Some? {
        var _ := ApplySnapshot(blob.value, false);
      }
      ok := true;
    }

    /** The loop of `restart_coordinator` over all plans. */
    method InvalidateLivePlans(now: i64)
      modifies this`plans
      ensures plans == InvalidateAll(old(plans), now)
    {
      hide Terminal;
      ghost var before := plans;
      var todo := plans.Keys;
      while todo != {}
        invariant todo <= before.Keys == plans.Keys
        invariant forall k :: k in before ==> plans[k] == if k in todo then before[k] else Invalidate(before[k], now)
        decreases |todo|
      {
        var k: u64 :| k in todo;
        var p := plans[k];
        if !Terminal(p.life) {
          plans := plans[k := p.(life := Invalidated, updatedAt := now)];
        }
        todo := todo - {k};
      }
    }

    method RestartCoordinator(now: i64) returns (r: Reply<()>)
      modifies this, store
      ensures var e := Lifecycle.RestartCoordinator(old(Abstract()), old(Disk()), now);
              && (r.Done? <==> e.Done?)
              && (e.Done? ==> Abstract() == e.value.state && Disk() == e.value.disk)
              && (e.Thrown? ==> Abstract() == old(Abstract()) && Disk() == old(Disk()) && r == Thrown(e.error))
    {
      hide Lifecycle.SaveState;
      hide Persistence.Load;
      hide Snapshot.ApplySnapshot;
      hide InvalidateAll;
      hide Wording.RestartEntry;
      if store != null {
        var saved := SaveState();
        if saved.Thrown? {
          return Thrown(ResourceExhausted);
        }
      }
      ctx := ctx.(epoch := Next(ctx.epoch), plannerBoot := Next(ctx.plannerBoot));
      ctx := ctx.(aliveWorkers := {}, resources := map[], recomputeLineage := {}, originalInputs := {});
      if store != null {
        var blob := store.LoadBlob(STATE_KEY);
        if blob.Some? {
          var _ := ApplySnapshot(blob.value, true);
        }
      }
      InvalidateLivePlans(now);
      history := history + [Wording.RestartEntry(ctx.epoch, ctx.plannerBoot)];
      r := Done(());
    }
  }

  /** `ReferenceExecutor`: it accepts every dispatch and reports the registered outcome at once. */
  class ReferenceExecutor {
    const listener: RecoveryPlanner?
    var dispatched: nat
    var overrides: map<u64, Outcome>

    constructor (planner: RecoveryPlanner?)
      ensures listener == planner && dispatched == 0 && overrides == map[]
    {
      listener := planner;
      dispatched := 0;
      overrides := map[];
    }

    method RegisterOutcome(planId: u64, outcome: Outcome)
      modifies this`overrides
      ensures overrides == old(overrides)[planId := outcome]
      ensures EndToEnd.ReportedOutcome(overrides, planId) == outcome
    {
      overrides := overrides[planId := outcome];
    }

    /** `dispatch`: the completion callback runs before the receipt is returned. */
    method Execute(d: Dispatch, now: i64) returns (status: DispatchStatus)
      modifies this`dispatched, if listener == null then {} else {listener}
      ensures status == Accepted && dispatched == old(dispatched) + 1
      ensures listener != null ==>
                && listener.Abstract() ==
                     EndToEnd.Complete(old(listener.Abstract()), d.dispatchId, EndToEnd.ReportedOutcome(overrides, d.planId), now)
    {
      dispatched := dispatched + 1;
      var outcome := Success;
      if d.planId in overrides {
        outcome := overrides[d.planId];
      }
      if listener != null {
        listener.OnAdapterCompletion(d.dispatchId, outcome, now);
      }
      status := Accepted;
    }
  }
}
