/** What the verdict FEASIBLE means, and what it does not. */
module FeasibilityProofs {
  import opened Integers
  import opened Domain
  import opened Evidence
  import opened Feasibility

  predicate AuthorityShown(c: Candidate, ctx: Context) {
    && c.authority.Some?
    && c.authority.value.coordinatorEpoch == ctx.epoch
    && c.authority.value.policyGeneration == ctx.policyGeneration
  }

  predicate Usable(f: Freshness) { f.Current? || f.FreshnessUnknown? }

  predicate StateShown(c: Candidate, q: Request) {
    && c.state.Some?
    && c.state.value.integrity.Valid?
    && Usable(c.state.value.freshness)
    && c.state.value.stateGeneration == c.stateGeneration
    && c.state.value.workloadGeneration in {0, q.workloadGeneration}
    && (c.checkpointStateGeneration.Some? ==> c.checkpointStateGeneration.value == c.stateGeneration)
  }

  /** The characters of "unqualified". */
  const UNQUALIFIED: text := [117, 110, 113, 117, 97, 108, 105, 102, 105, 101, 100]

  predicate CompatibilityShown(c: Candidate, q: Request, ctx: Context) {
    match c.compatibility
    case None => q.compatibilityRequirements == []
    case Some(co) =>
      && (co.result.Exact? || co.result.Compatible? || co.result.WithAdaptation? || co.result.Conditional?)
      && co.generation == ctx.compatibilityGeneration
      && !co.freshness.MustRevalidate?
      && (co.subject in ctx.compatibilityTable && co.subject != [] ==>
            (if co.stateFormat == [] then UNQUALIFIED else co.stateFormat) in ctx.compatibilityTable[co.subject])
  }

  predicate TargetShown(c: Candidate, ctx: Context) {
    c.strategy != RECOMPUTE ==>
      && c.availability.Some?
      && c.availability.value.isAlive
      && c.availability.value.readiness.Ready?
      && Usable(c.availability.value.freshness)
      && c.availability.value.worker in ctx.aliveWorkers
      && c.availability.value.worker in ctx.workerBoots
      && ctx.workerBoots[c.availability.value.worker] == c.availability.value.boot
  }

  predicate ResourceShown(c: Candidate, ctx: Context) {
    && c.resource.Some?
    && var rs := c.resource.value;
       && (rs.status.Available? || rs.status.Contended?)
       && Usable(rs.freshness)
       && rs.generation == ctx.resourceGeneration
       && (rs.required.Some? ==>
             && rs.available.Some?
             && rs.required.value <= rs.available.value
             && (rs.kind != [] ==> rs.kind in ctx.resources && rs.required.value <= ctx.resources[rs.kind]))
  }

  predicate StrategyShown(c: Candidate, q: Request, ctx: Context) {
    && c.strategy <= RECOMPUTE
    && c.strategy !in q.forbidden
    && (c.strategy == MIGRATE ==>
          && c.topology.Some? && c.topology.value.pathPossible && c.topology.value.generation == ctx.topologyGeneration
          && c.sourceWorker != 0 && c.sourceWorker != c.targetWorker
          && c.state.Some? && c.state.value.isDurable && c.hasTransfer)
    && (c.strategy == SHADOW_PROMOTE ==>
          && c.shadow.Some? && c.shadow.value.readiness.Ready? && c.shadow.value.lag <= MAX_SHADOW_LAG
          && !c.shadow.value.compatibility.Incompatible?)
    && (c.strategy == RECOMPUTE ==>
          && q.workloadGeneration in ctx.recomputeLineage && q.workloadGeneration in ctx.originalInputs
          && c.cost.Some? && c.cost.value.recomputeTime.Some?)
  }

  /** Everything that the evidence of a feasible candidate shows. */
  predicate Shown(c: Candidate, q: Request, ctx: Context) {
    && c.candidateId != 0 && c.generation != 0
    && AuthorityShown(c, ctx)
    && StateShown(c, q)
    && CompatibilityShown(c, q, ctx)
    && TargetShown(c, ctx)
    && ResourceShown(c, ctx)
    && StrategyShown(c, q, ctx)
  }

  /** FEASIBLE exactly when the evidence shows everything: absent evidence never passes. */
  lemma FeasibleMeansShown(c: Candidate, q: Request, ctx: Context)
    ensures Evaluate(c, q, ctx).Feasible? <==> Shown(c, q, ctx)
  {
    NoHardViolation(c, q, ctx);
  }

  lemma NoHardViolation(c: Candidate, q: Request, ctx: Context)
    ensures !Blocked(c, q, ctx) <==>
              && IdentityHard(c) == [] && AuthorityHard(c, ctx) == [] && StateHard(c, q) == [] && CheckpointHard(c) == []
              && CompatibilityHard(c, ctx) == [] && TargetHard(c, ctx) == [] && ResourceHard(c, ctx) == []
              && TopologyHard(c, ctx) == [] && MigrationHard(c) == [] && ShadowHard(c) == [] && RecomputeHard(c, q, ctx) == []
  {
  }

  function BlurFreshness(f: Freshness): Freshness { if f.Current? then FreshnessUnknown else f }

  /** The same candidate with every CURRENT mark on its evidence replaced by UNKNOWN. */
  function Blurred(c: Candidate): Candidate {
    c.(state := if c.state.None? then None
                else Some(c.state.value.(freshness := BlurFreshness(c.state.value.freshness))),
       compatibility := if c.compatibility.None? then None
                        else Some(c.compatibility.value.(freshness := BlurFreshness(c.compatibility.value.freshness))),
       availability := if c.availability.None? then None
                       else Some(c.availability.value.(freshness := BlurFreshness(c.availability.value.freshness))),
       resource := if c.resource.None? then None
                   else Some(c.resource.value.(freshness := BlurFreshness(c.resource.value.freshness))))
  }

  /**
   "UNKNOWN never becomes FEASIBLE by default" (include/recovery_planner/feasibility.hpp) does not hold of
   freshness: unknown freshness is treated as current, for every candidate.
   */
  lemma UnknownFreshnessCountsAsCurrent(c: Candidate, q: Request, ctx: Context)
    ensures Evaluate(Blurred(c), q, ctx) == Evaluate(c, q, ctx)
  {
    UnblurredRules(c, q, ctx);
    BlurredHard(c, q, ctx);
    BlurredGaps(c, q, ctx);
    assert Blurred(c).strategy == c.strategy;
    hide Lacking;
    hide MustBeRevalidated;
    hide Deferred;
    hide IdentityHard;
    hide AuthorityHard;
    hide StateHard;
    hide CheckpointHard;
    hide CompatibilityHard;
    hide TargetHard;
    hide ResourceHard;
    hide TopologyHard;
    hide MigrationHard;
    hide ShadowHard;
    hide RecomputeHard;
    hide Blurred;
  }

  lemma BlurredHard(c: Candidate, q: Request, ctx: Context)
    ensures var b := Blurred(c);
            && StateHard(b, q) == StateHard(c, q) && CompatibilityHard(b, ctx) == CompatibilityHard(c, ctx)
            && TargetHard(b, ctx) == TargetHard(c, ctx) && ResourceHard(b, ctx) == ResourceHard(c, ctx)
  {
  }

  lemma BlurredGaps(c: Candidate, q: Request, ctx: Context)
    ensures var b := Blurred(c);
            && Lacking(b, q, ctx) == Lacking(c, q, ctx)
            && MustBeRevalidated(b) == MustBeRevalidated(c) && Deferred(b) == Deferred(c)
  {
  }

  lemma UnblurredRules(c: Candidate, q: Request, ctx: Context)
    ensures var b := Blurred(c);
            && IdentityHard(b) == IdentityHard(c) && AuthorityHard(b, ctx) == AuthorityHard(c, ctx)
            && CheckpointHard(b) == CheckpointHard(c) && TopologyHard(b, ctx) == TopologyHard(c, ctx)
            && MigrationHard(b) == MigrationHard(c) && ShadowHard(b) == ShadowHard(c)
            && RecomputeHard(b, q, ctx) == RecomputeHard(c, q, ctx)
  {
  }

  /** A restart makes every candidate observed before it infeasible until it is observed again. */
  lemma OldEpochIsNeverFeasible(c: Candidate, q: Request, ctx: Context)
    requires c.authority.Some? && c.authority.value.coordinatorEpoch != ctx.epoch
    ensures Evaluate(c, q, ctx).Infeasible?
  {
    NoHardViolation(c, q, ctx);
  }
}
