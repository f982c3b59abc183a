/**
 The five verdicts and the recorded reasons, said of the evidence itself: what contradicts a candidate, what is
 needed for a decision, which marks ask for revalidation, and when one only has to wait.
 */
module Verdicts {
  import opened Domain
  import opened Evidence
  import opened Feasibility
  import FeasibilityProofs

  // ---- What contradicts a candidate -----------------------------------------------------------

  predicate TargetNamed(c: Candidate) { c.strategy != RECOMPUTE && c.availability.Some? }

  /** The compatibility table has an entry for the subject, and the format is not in it. */
  predicate OffTheTable(co: CompatibilityEvidence, ctx: Context) {
    && co.subject != [] && co.subject in ctx.compatibilityTable
    && (if co.stateFormat == [] then FeasibilityProofs.UNQUALIFIED else co.stateFormat) !in ctx.compatibilityTable[co.subject]
  }

  /** Which evidence a reason names, among identity, authority, state, compatibility, target and resource. */
  predicate EarlyContradiction(r: Reason, c: Candidate, q: Request, ctx: Context) {
    match r
    case InvalidCandidateGeneration => c.candidateId == 0 || c.generation == 0
    case InvalidStrategy => c.strategy !in {RESTORE, RESTART, MIGRATE, REHYDRATE, SHADOW_PROMOTE, FAILOVER, RECOMPUTE}
    case StaleAuthority => c.authority.Some? && c.authority.value.coordinatorEpoch != ctx.epoch
    case PolicyGenerationStale => c.authority.Some? && c.authority.value.policyGeneration != ctx.policyGeneration
    case WorkloadGenerationStale => c.state.Some? && c.state.value.workloadGeneration !in {0, q.workloadGeneration}
    case InvalidStateIntegrity => c.state.Some? && c.state.value.integrity == Corrupt
    case ExpiredState => c.state.Some? && c.state.value.freshness == TooOld
    case StateGenerationStale =>
      || (c.state.Some? && c.state.value.stateGeneration != c.stateGeneration)
      || (c.checkpointStateGeneration.Some? && c.checkpointStateGeneration.value != c.stateGeneration)
    case IncompatibleTarget =>
      c.compatibility.Some? && (c.compatibility.value.result == Incompatible || OffTheTable(c.compatibility.value, ctx))
    case CompatibilityGenerationStale =>
      c.compatibility.Some? && c.compatibility.value.generation != ctx.compatibilityGeneration
    case TargetUnavailable =>
      TargetNamed(c) && !(c.availability.value.isAlive && c.availability.value.worker in ctx.aliveWorkers)
    case TargetIncarnationMismatch =>
      TargetNamed(c) && (c.availability.value.worker, c.availability.value.boot) !in ctx.workerBoots.Items
    case ReadinessFailed => TargetNamed(c) && c.availability.value.readiness == NotReady
    case InsufficientResources =>
      && c.resource.Some?
      && (|| c.resource.value.status == Unavailable
          || (c.resource.value.required.Some? && c.resource.value.available.Some?
              && c.resource.value.available.value < c.resource.value.required.value))
    case ResourceGenerationStale => c.resource.Some? && c.resource.value.generation != ctx.resourceGeneration
    case _ => false
  }

  /** The same for topology, migration, shadow and recomputation. */
  predicate LateContradiction(r: Reason, c: Candidate, q: Request, ctx: Context) {
    match r
    case TopologyImpossible =>
      && c.strategy == MIGRATE && c.topology.Some?
      && !(c.topology.value.pathPossible && c.topology.value.generation == ctx.topologyGeneration)
    case InvalidMigrationRelation => c.strategy == MIGRATE && c.sourceWorker in {0, c.targetWorker}
    case ReadinessFailed => c.strategy == SHADOW_PROMOTE && c.shadow.Some? && c.shadow.value.readiness != Ready
    case ShadowNotCurrent => c.strategy == SHADOW_PROMOTE && c.shadow.Some? && c.shadow.value.lag > 1099511627776
    case IncompatibleTarget =>
      c.strategy == SHADOW_PROMOTE && c.shadow.Some? && c.shadow.value.compatibility == Incompatible
    case NoRecomputeLineage =>
      c.strategy == RECOMPUTE && q.workloadGeneration !in ctx.recomputeLineage * ctx.originalInputs
    case _ => false
  }

  /** The evidence claims enough of a resource that the planner's own view does not grant. */
  predicate ViewShort(c: Candidate, ctx: Context) {
    && c.resource.Some? && c.resource.value.required.Some? && c.resource.value.available.Some?
    && c.resource.value.kind != []
    && !(c.resource.value.kind in ctx.resources && c.resource.value.required.value <= ctx.resources[c.resource.value.kind])
  }

  // ---- What is needed for a decision ----------------------------------------------------------

  predicate Outdated(f: Freshness) { f == Stale || f == TooOld }

  predicate Complete(c: Candidate, q: Request, ctx: Context) {
    && c.authority.Some?
    && (c.state.Some? && !Outdated(c.state.value.freshness) && c.state.value.integrity in {Valid, Corrupt})
    && (match c.compatibility
        case None => q.compatibilityRequirements == []
        case Some(co) => co.result != CompatibilityUnknown && co.result != NotEnoughEvidence)
    && (c.strategy != RECOMPUTE ==>
          && c.availability.Some? && c.availability.value.readiness != ReadinessUnknown
          && !Outdated(c.availability.value.freshness))
    && (&& c.resource.Some? && c.resource.value.status != StatusUnknown && !Outdated(c.resource.value.freshness)
        && (c.resource.value.required.Some? ==> c.resource.value.available.Some?)
        && !ViewShort(c, ctx))
    && (c.strategy == MIGRATE ==> c.topology.Some? && c.state.value.isDurable && c.hasTransfer)
    && (c.strategy == SHADOW_PROMOTE ==> c.shadow.Some?)
    && (c.strategy == RECOMPUTE ==> c.cost.Some? && c.cost.value.recomputeTime.Some?)
  }

  /** The freshness marks that are consulted; that of the target not for a recomputation. */
  function Marks(c: Candidate): set<Freshness> {
    (if c.state.Some? then {c.state.value.freshness} else {})
    + (if c.compatibility.Some? then {c.compatibility.value.freshness} else {})
    + (if TargetNamed(c) then {c.availability.value.freshness} else {})
    + (if c.resource.Some? then {c.resource.value.freshness} else {})
  }

  predicate OnlyWarming(c: Candidate) { TargetNamed(c) && c.availability.value.readiness == Warming }

  // ---- The rules, in these terms --------------------------------------------------------------

  lemma HardStateIs(r: Reason, c: Candidate, q: Request)
    ensures r in StateHard(c, q) + CheckpointHard(c) <==>
              && r in {WorkloadGenerationStale, InvalidStateIntegrity, ExpiredState, StateGenerationStale}
              && EarlyContradiction(r, c, q, INITIAL.ctx)
  {
  }

  lemma HardIdentityIs(r: Reason, c: Candidate, q: Request, ctx: Context)
    ensures r in IdentityHard(c) + AuthorityHard(c, ctx) <==>
              && r in {InvalidCandidateGeneration, InvalidStrategy, StaleAuthority, PolicyGenerationStale}
              && EarlyContradiction(r, c, q, ctx)
  {
  }

  lemma HardCompatibilityIs(r: Reason, c: Candidate, q: Request, ctx: Context)
    ensures r in CompatibilityHard(c, ctx) <==>
              r in {IncompatibleTarget, CompatibilityGenerationStale} && EarlyContradiction(r, c, q, ctx)
  {
  }

  lemma HardTargetIs(r: Reason, c: Candidate, q: Request, ctx: Context)
    ensures r in TargetHard(c, ctx) <==>
              r in {TargetUnavailable, TargetIncarnationMismatch, ReadinessFailed} && EarlyContradiction(r, c, q, ctx)
  {
  }

  lemma HardResourceIs(r: Reason, c: Candidate, q: Request, ctx: Context)
    ensures r in ResourceHard(c, ctx) <==>
              r in {InsufficientResources, ResourceGenerationStale} && EarlyContradiction(r, c, q, ctx)
  {
  }

  lemma EarlyIs(r: Reason, c: Candidate, q: Request, ctx: Context)
    ensures r in HardUpToResources(c, q, ctx) <==> EarlyContradiction(r, c, q, ctx)
  {
    HardIdentityIs(r, c, q, ctx);
    HardStateIs(r, c, q);
    HardCompatibilityIs(r, c, q, ctx);
    HardTargetIs(r, c, q, ctx);
    HardResourceIs(r, c, q, ctx);
    hide IdentityHard;
    hide AuthorityHard;
    hide StateHard;
    hide CheckpointHard;
    hide CompatibilityHard;
    hide TargetHard;
    hide ResourceHard;
  }

  lemma LateIs(r: Reason, c: Candidate, q: Request, ctx: Context)
    ensures r in HardAfterResources(c, q, ctx) <==> LateContradiction(r, c, q, ctx)
  {
  }

  lemma LackingIs(c: Candidate, q: Request, ctx: Context)
    ensures Lacking(c, q, ctx) <==> !Complete(c, q, ctx)
  {
  }

  lemma MarksAre(c: Candidate)
    ensures MustBeRevalidated(c) <==> MustRevalidate in Marks(c)
    ensures Deferred(c) <==> OnlyWarming(c)
  {
  }

  // ---- The verdicts ---------------------------------------------------------------------------

  predicate Contradicted(c: Candidate, q: Request, ctx: Context) {
    c.strategy in q.forbidden || exists r :: EarlyContradiction(r, c, q, ctx) || LateContradiction(r, c, q, ctx)
  }

  lemma BlockedIs(c: Candidate, q: Request, ctx: Context)
    ensures Blocked(c, q, ctx) <==> exists r :: EarlyContradiction(r, c, q, ctx) || LateContradiction(r, c, q, ctx)
  {
    hide HardUpToResources;
    hide HardAfterResources;
    hide EarlyContradiction;
    hide LateContradiction;
    forall r
      ensures r in HardUpToResources(c, q, ctx) <==> EarlyContradiction(r, c, q, ctx)
      ensures r in HardAfterResources(c, q, ctx) <==> LateContradiction(r, c, q, ctx)
    {
      EarlyIs(r, c, q, ctx);
      LateIs(r, c, q, ctx);
    }
    if HardUpToResources(c, q, ctx) != [] {
      assert HardUpToResources(c, q, ctx)[0] in HardUpToResources(c, q, ctx);
    }
    if HardAfterResources(c, q, ctx) != [] {
      assert HardAfterResources(c, q, ctx)[0] in HardAfterResources(c, q, ctx);
    }
  }

  /** Each verdict, exactly: a contradiction comes before a gap, a gap before a revalidation, that before waiting. */
  lemma VerdictMeans(c: Candidate, q: Request, ctx: Context)
    ensures Evaluate(c, q, ctx).Infeasible? <==> Contradicted(c, q, ctx)
    ensures Evaluate(c, q, ctx).InsufficientEvidence? <==> !Contradicted(c, q, ctx) && !Complete(c, q, ctx)
    ensures Evaluate(c, q, ctx).RevalidationRequired? <==>
              !Contradicted(c, q, ctx) && Complete(c, q, ctx) && MustRevalidate in Marks(c)
    ensures Evaluate(c, q, ctx).Defer? <==>
              !Contradicted(c, q, ctx) && Complete(c, q, ctx) && MustRevalidate !in Marks(c) && OnlyWarming(c)
    ensures Evaluate(c, q, ctx).Feasible? <==>
              !Contradicted(c, q, ctx) && Complete(c, q, ctx) && MustRevalidate !in Marks(c) && !OnlyWarming(c)
  {
    BlockedIs(c, q, ctx);
    LackingIs(c, q, ctx);
    MarksAre(c);
    hide Blocked;
    hide Lacking;
    hide MustBeRevalidated;
    hide Deferred;
    hide Complete;
    hide Marks;
    hide OnlyWarming;
    hide EarlyContradiction;
    hide LateContradiction;
  }

  // ---- The reasons ----------------------------------------------------------------------------

  /** A reason is recorded exactly when the evidence that it names is there; a forbidden strategy is all that is said. */
  lemma ReasonMeans(r: Reason, c: Candidate, q: Request, ctx: Context)
    ensures r in Violations(c, q, ctx) <==>
              if c.strategy in q.forbidden then r == ForbiddenStrategy
              else
                || EarlyContradiction(r, c, q, ctx)
                || LateContradiction(r, c, q, ctx)
                || (r == MissingEvidence && c.strategy == MIGRATE && (c.state.None? || !c.hasTransfer))
                || (r == InsufficientResources && ViewShort(c, ctx) && forall e :: !EarlyContradiction(e, c, q, ctx))
  {
    EarlyIs(r, c, q, ctx);
    LateIs(r, c, q, ctx);
    NothingEarly(c, q, ctx);
    hide EarlyContradiction;
    hide LateContradiction;
    hide HardUpToResources;
    hide TopologyHard;
    hide MigrationHard;
    hide ShadowHard;
    hide RecomputeHard;
  }

  lemma NothingEarly(c: Candidate, q: Request, ctx: Context)
    ensures HardUpToResources(c, q, ctx) == [] <==> forall e :: !EarlyContradiction(e, c, q, ctx)
  {
    hide HardUpToResources;
    hide EarlyContradiction;
    forall r ensures r in HardUpToResources(c, q, ctx) <==> EarlyContradiction(r, c, q, ctx) {
      EarlyIs(r, c, q, ctx);
    }
    if HardUpToResources(c, q, ctx) != [] {
      assert HardUpToResources(c, q, ctx)[0] in HardUpToResources(c, q, ctx);
    }
  }
}
