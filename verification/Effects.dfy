/** What the calls of the planner do to the fields of its state, told without the functions that compute it. */
module Effects {
  import opened Integers
  import opened Domain
  import opened Evidence
  import opened Planning
  import opened Lifecycle
  import opened Codec
  import Economics
  import Wording

  // ---- Fences ---------------------------------------------------------------------------------

  /** Everything that a plan's authority names is still so. */
  predicate FencesMatch(p: Plan, ctx: Context) {
    && p.authority.coordinatorEpoch == ctx.epoch
    && p.authority.workloadGeneration == ctx.workloadGeneration
    && p.authority.policyGeneration == ctx.policyGeneration
    && p.authority.compatibilityGeneration == ctx.compatibilityGeneration
    && p.authority.resourceGeneration == ctx.resourceGeneration
    && p.authority.topologyGeneration == ctx.topologyGeneration
    && p.targetWorker in ctx.aliveWorkers
    && (p.targetWorker, p.targetBoot) in ctx.workerBoots.Items
  }

  lemma AuthorityMeans(p: Plan, ctx: Context)
    ensures AuthorityCurrent(p, ctx) <==> FencesMatch(p, ctx)
  {
  }

  /** Nothing that a plan is fenced by has changed between two worlds, and the target is live in the second. */
  predicate WorldStands(before: Context, after: Context, q: Request, c: Candidate) {
    && after.epoch == before.epoch
    && after.workloadGeneration == q.workloadGeneration
    && after.policyGeneration == before.policyGeneration
    && after.compatibilityGeneration == before.compatibilityGeneration
    && after.resourceGeneration == before.resourceGeneration
    && after.topologyGeneration == before.topologyGeneration
    && c.targetWorker in after.aliveWorkers
    && c.targetWorker in after.workerBoots && after.workerBoots[c.targetWorker] == c.targetBoot
  }

  /** A plan made in one world is current in another exactly when the world it was made in still stands. */
  lemma PlanIsFencedByItsWorld(s: State, q: Request, c: Candidate, now: i64, sha: Hash, later: Context)
    ensures AuthorityCurrent(BuildPlan(s, q, c, now, sha), later) <==> WorldStands(s.ctx, later, q, c)
  {
    hide DecisionDigest;
    hide Wording.Payload;
  }

  // ---- Making a plan --------------------------------------------------------------------------

  /** A plan carries its candidate, its request and the fences of the moment, field by field. */
  predicate Carries(p: Plan, s: State, q: Request, c: Candidate, now: i64) {
    && p.planId == s.nextPlanId && p.generation == s.nextGeneration
    && p.requestId == q.requestId && p.workload == q.workload
    && p.strategy == c.strategy && p.candidateId == c.candidateId && p.candidateGeneration == c.generation
    && p.targetWorker == c.targetWorker && p.targetBoot == c.targetBoot && p.targetEngine == c.targetEngine
    && p.engineIncarnation == c.engineIncarnation
    && p.stateSource == c.stateSource && p.stateGeneration == c.stateGeneration && p.checkpointSource == c.checkpointSource
    && p.authority.coordinatorEpoch == s.ctx.epoch && p.authority.plannerBoot == s.ctx.plannerBoot
    && p.authority.requestId == q.requestId && p.authority.planGeneration == p.generation
    && p.authority.candidateGeneration == c.generation && p.authority.targetBoot == c.targetBoot
    && p.authority.engineIncarnation == c.engineIncarnation && p.authority.stateGeneration == c.stateGeneration
    && p.authority.compatibilityGeneration == s.ctx.compatibilityGeneration
    && p.authority.resourceGeneration == s.ctx.resourceGeneration
    && p.authority.policyGeneration == s.ctx.policyGeneration
    && p.authority.topologyGeneration == s.ctx.topologyGeneration
    && p.authority.workloadGeneration == q.workloadGeneration
    && p.life == Planned && p.outcome == Unknown && !p.published && p.lastAttempt == 0
    && p.createdAt == now && p.updatedAt == now
    && p.payload == Wording.Payload(c)
  }

  lemma BuiltPlanCarries(s: State, q: Request, c: Candidate, now: i64, sha: Hash)
    ensures Carries(BuildPlan(s, q, c, now, sha), s, q, c, now)
    ensures BuildPlan(s, q, c, now, sha).digest == Wording.Hex(sha(Encode(DigestInput(q, c, s.ctx))))
    ensures BuildPlan(s, q, c, now, sha).deadline == Economics.EvaluateDeadline(c, q, now).outcome
  {
    hide Wording.Payload;
    hide Economics.EvaluateDeadline;
    hide DigestInput;
    hide Encode;
    hide Wording.Hex;
  }

  /** The parts of a decision that its digest is taken of. */
  predicate SameDecision(q: Request, c: Candidate, ctx: Context, q': Request, c': Candidate, ctx': Context) {
    && q.requestId == q'.requestId && q.workload == q'.workload && q.workloadGeneration == q'.workloadGeneration
    && q.execution == q'.execution && q.failure == q'.failure
    && c.strategy == c'.strategy && c.candidateId == c'.candidateId && c.generation == c'.generation
    && c.targetWorker == c'.targetWorker && c.targetBoot == c'.targetBoot
    && c.stateSource == c'.stateSource && c.stateGeneration == c'.stateGeneration
    && ctx.epoch == ctx'.epoch && ctx.policyGeneration == ctx'.policyGeneration
    && ctx.compatibilityGeneration == ctx'.compatibilityGeneration && ctx.resourceGeneration == ctx'.resourceGeneration
  }

  /** What is read back from the bytes that a digest is taken of. */
  lemma DigestInputReadsBack(q: Request, c: Candidate, ctx: Context)
    ensures var ids := ReadU64s(RawCursor(Encode(DigestInput(q, c, ctx)), 0, false), 6);
            var strategy := ReadU8(ids.at);
            var fences := ReadU64s(strategy.at, 9);
            && ids.value == [q.requestId, q.workload, q.workloadGeneration, q.execution, q.failure, ctx.epoch]
            && strategy.value == c.strategy
            && fences.value == [c.candidateId, c.generation, c.targetWorker, c.targetBoot, c.stateSource, c.stateGeneration,
                                ctx.policyGeneration, ctx.compatibilityGeneration, ctx.resourceGeneration]
  {
    var xs := [q.requestId, q.workload, q.workloadGeneration, q.execution, q.failure, ctx.epoch];
    var ys := [c.candidateId, c.generation, c.targetWorker, c.targetBoot, c.stateSource, c.stateGeneration,
               ctx.policyGeneration, ctx.compatibilityGeneration, ctx.resourceGeneration];
    var bytes := Encode(DigestInput(q, c, ctx));
    var start := RawCursor(bytes, 0, false);
    assert start.data[0..] + [] == bytes;
    assert Tracks(start, U64s(xs, Then(U8(c.strategy), U64s(ys, End))), []);
    hide Encode;
    hide Tracks;
    hide DigestInput;
    hide U64s;
    hide ReadU64s;
    hide ReadU8;
    U64sTaken(start, xs, Then(U8(c.strategy), U64s(ys, End)), []);
    var ids := ReadU64s(start, 6);
    U8Taken(ids.at, c.strategy, U64s(ys, End), []);
    U64sTaken(ReadU8(ids.at).at, ys, End, []);
  }

  /** The bytes that a decision digest is taken of are the same for the same decision, and for no other. */
  lemma DigestInputIdentifies(q: Request, c: Candidate, ctx: Context, q': Request, c': Candidate, ctx': Context)
    ensures Encode(DigestInput(q, c, ctx)) == Encode(DigestInput(q', c', ctx')) <==> SameDecision(q, c, ctx, q', c', ctx')
  {
    DigestInputReadsBack(q, c, ctx);
    DigestInputReadsBack(q', c', ctx');
    assert SameDecision(q, c, ctx, q', c', ctx') ==> DigestInput(q, c, ctx) == DigestInput(q', c', ctx');
    hide Encode;
    hide DigestInput;
    hide ReadU64s;
    hide ReadU8;
    if Encode(DigestInput(q, c, ctx)) == Encode(DigestInput(q', c', ctx')) {
      var xs, xs' := [q.requestId, q.workload, q.workloadGeneration, q.execution, q.failure, ctx.epoch],
                     [q'.requestId, q'.workload, q'.workloadGeneration, q'.execution, q'.failure, ctx'.epoch];
      var ys, ys' := [c.candidateId, c.generation, c.targetWorker, c.targetBoot, c.stateSource, c.stateGeneration,
                      ctx.policyGeneration, ctx.compatibilityGeneration, ctx.resourceGeneration],
                     [c'.candidateId, c'.generation, c'.targetWorker, c'.targetBoot, c'.stateSource, c'.stateGeneration,
                      ctx'.policyGeneration, ctx'.compatibilityGeneration, ctx'.resourceGeneration];
      assert xs == xs' && ys == ys';
      assert forall i :: 0 <= i < 6 ==> xs[i] == xs'[i];
      assert xs[0] == xs'[0] && xs[1] == xs'[1] && xs[2] == xs'[2] && xs[3] == xs'[3] && xs[4] == xs'[4] && xs[5] == xs'[5];
      assert ys[0] == ys'[0] && ys[1] == ys'[1] && ys[2] == ys'[2] && ys[3] == ys'[3] && ys[4] == ys'[4] && ys[5] == ys'[5];
      assert ys[6] == ys'[6] && ys[7] == ys'[7] && ys[8] == ys'[8];
    }
  }

  // ---- Authorize, revalidate ------------------------------------------------------------------

  lemma AuthorizeMeans(s: State, id: u64, now: i64)
    ensures AuthorizePlan(s, id, now) ==
              if id !in s.plans then Thrown(NotFound)
              else if !FencesMatch(s.plans[id], s.ctx) then Thrown(StaleAuthority)
              else if s.plans[id].life != Planned && s.plans[id].life != Authorized then Thrown(InvalidInput)
              else Done(s.(plans := s.plans[id := s.plans[id].(life := Authorized, updatedAt := now)]))
  {
    if id in s.plans {
      AuthorityMeans(s.plans[id], s.ctx);
      TransitionsAre(s.plans[id].life, Authorized);
    }
    hide AuthorityCurrent;
    hide FencesMatch;
    hide ValidTransition;
  }

  /** Revalidation returns the stored plan exactly when its fences match and its deadline was not violated when made. */
  lemma RevalidateMeans(s: State, id: u64)
    ensures RevalidatePlan(s, id) ==
              if id !in s.plans then Thrown(NotFound)
              else if FencesMatch(s.plans[id], s.ctx) && s.plans[id].deadline != Violated then Done(s.plans[id])
              else Thrown(StaleAuthority)
  {
    if id in s.plans {
      AuthorityMeans(s.plans[id], s.ctx);
    }
    hide AuthorityCurrent;
    hide FencesMatch;
  }

  // ---- Dispatch -------------------------------------------------------------------------------

  /** The instruction for an executor says what the plan says, field by field. */
  predicate Instructs(d: Dispatch, p: Plan) {
    && d.planId == p.planId && d.planGeneration == p.generation && d.requestId == p.requestId
    && d.strategy == p.strategy
    && d.targetWorker == p.targetWorker && d.targetBoot == p.targetBoot && d.engineIncarnation == p.engineIncarnation
    && d.stateSource == p.stateSource && d.stateGeneration == p.stateGeneration
    && d.payload == p.payload
    && d.dispatchId == d.attempt == Next(p.lastAttempt)
  }

  lemma BeginMeans(s: State, id: u64, now: i64)
    ensures var b := BeginDispatch(s, id, now);
            if id !in s.plans then b == Thrown(NotFound)
            else
              var p := s.plans[id];
              if !FencesMatch(p, s.ctx) then b == Thrown(StaleAuthority)
              else if p.life == Authorized then
                && b.Done? && Instructs(b.value.dispatch, p)
                && b.value.state == s.(
                     plans := s.plans[id := p.(life := Dispatched, lastAttempt := Next(p.lastAttempt), updatedAt := now)],
                     dispatches := s.dispatches[Next(p.lastAttempt) := DispatchEntry(p.planId, p.generation, p.targetBoot)])
              else if p.life in {Succeeded, Failed, Superseded, Cancelled, Expired, Invalidated}
              then b == Thrown(StaleAuthority)
              else b == Thrown(InvalidInput)
  {
    if id in s.plans {
      AuthorityMeans(s.plans[id], s.ctx);
    }
    hide AuthorityCurrent;
    hide FencesMatch;
  }

  /** A receipt: acceptance moves a dispatched plan on, anything else fails a plan under way; nothing else moves. */
  lemma FinishMeans(s: State, id: u64, status: DispatchStatus, now: i64)
    ensures FinishDispatch(s, id, status, now) ==
              if id !in s.plans then Thrown(NotFound)
              else
                var p := s.plans[id];
                var underWay := p.life == Dispatched || p.life == Executing;
                var life := if !underWay then p.life else if status == Accepted then Executing else Failed;
                Done(s.(plans := s.plans[id := p.(life := life, updatedAt := now)]))
  {
  }

  // ---- Reports --------------------------------------------------------------------------------

  /** How a plan under way ends when `outcome` is reported. */
  function ReportedAs(p: Plan, outcome: Outcome, now: i64): Plan {
    if outcome == Success then p.(life := Succeeded, outcome := Success, published := true, updatedAt := now)
    else if outcome == Failure then p.(life := Failed, outcome := Failure, published := true, updatedAt := now)
    else if outcome in {Ambiguous, Unknown, Withdrawn}
    then p.(life := Failed, outcome := outcome, published := false, updatedAt := now)
    else p.(updatedAt := now)
  }

  /** Every report, in every state: which plan it changes, and into what. */
  lemma ReportMeans(s: State, r: Report, now: i64)
    ensures ReportExecution(s, r, now) ==
              if r.planId !in s.plans then s
              else
                var p := s.plans[r.planId];
                if r.planGeneration != p.generation || r.reporterBoot != p.targetBoot then s
                else if p.life == Dispatched || p.life == Executing then s.(plans := s.plans[r.planId := ReportedAs(p, r.outcome, now)])
                else if p.life in {Succeeded, Failed, Superseded, Cancelled, Expired, Invalidated} then s
                else s.(plans := s.plans[r.planId := p.(updatedAt := now)])
  {
    if r.planId in s.plans {
      TransitionsAre(s.plans[r.planId].life, Succeeded);
      TransitionsAre(s.plans[r.planId].life, Failed);
    }
    hide ValidTransition;
  }

  // ---- Cancel, invalidate ---------------------------------------------------------------------

  /** A cancel takes effect exactly before the dispatch. */
  lemma CancelMeans(s: State, id: u64, force: bool, now: i64)
    ensures CancelPlan(s, id, force, now) ==
              if id in s.plans && s.plans[id].life in {Requested, Evaluating, Planned, Authorized}
              then Cancelling(s.(plans := s.plans[id := s.plans[id].(life := Cancelled, outcome := Withdrawn, updatedAt := now)]), true)
              else Cancelling(s, false)
  {
    if id in s.plans {
      TransitionsAre(s.plans[id].life, Cancelled);
    }
    hide ValidTransition;
  }

  /** An invalidation takes effect exactly on the live states. */
  lemma InvalidateMeans(s: State, id: u64, now: i64)
    ensures InvalidatePlan(s, id, now) ==
              if id in s.plans && s.plans[id].life in {Requested, Evaluating, Planned, Authorized, Dispatched, Executing}
              then s.(plans := s.plans[id := s.plans[id].(life := Invalidated, updatedAt := now)])
              else s
  {
    if id in s.plans {
      TransitionsAre(s.plans[id].life, Invalidated);
    }
    hide ValidTransition;
  }

  // ---- The world ------------------------------------------------------------------------------

  /** What the queries of a context answer after each of its updates. */
  lemma RegisterMeans(ctx: Context, w: u64, boot: u64, v: u64, b: u64)
    ensures var r := ctx.RegisterWorker(w, boot);
            && (r.WorkerIsCurrent(v) <==> v == w || v in ctx.aliveWorkers)
            && (r.WorkerBootMatches(v, b) <==> if v == w then b == boot else v in ctx.workerBoots && ctx.workerBoots[v] == b)
            && (ctx.UnregisterWorker(w).WorkerIsCurrent(v) <==> v != w && v in ctx.aliveWorkers)
            && (ctx.UnregisterWorker(w).WorkerBootMatches(v, b) <==> v in ctx.workerBoots && ctx.workerBoots[v] == b)
  {
  }

  lemma ResourceMeans(ctx: Context, kind: text, amount: u64, other: text, n: u64)
    ensures ctx.SetResource(kind, amount).ResourceSufficient(other, n) <==>
              if other == kind then n <= amount else other in ctx.resources && n <= ctx.resources[other]
  {
  }

  lemma RecomputeMeans(ctx: Context, g: u64, available: bool, other: u64)
    ensures ctx.SetRecompute(g, available).RecomputeAvailable(other) <==>
              if other == g then available else other in ctx.recomputeLineage && other in ctx.originalInputs
  {
  }
}
