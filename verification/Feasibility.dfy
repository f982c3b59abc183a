/**
 Feasibility of one candidate. The method follows the rules of src/feasibility.cpp one by one; its
 verdict and its violations are functions of the inputs, and the verdict FEASIBLE is characterised by a
 positive statement of what the evidence must show.
 */
module Feasibility {
  import opened Integers
  import opened Domain
  import opened Evidence

  datatype Verdict = Feasible | Infeasible | Defer | RevalidationRequired | InsufficientEvidence

  datatype Reason =
    | StaleAuthority | InvalidStateIntegrity | IncompatibleTarget | TargetUnavailable | InvalidCandidateGeneration
    | InsufficientResources | ExpiredState | ForbiddenStrategy | MissingEvidence | TargetIncarnationMismatch
    | ReadinessFailed | TopologyImpossible | InvalidMigrationRelation | ShadowNotCurrent | NoRecomputeLineage
    | ResourceGenerationStale | CompatibilityGenerationStale | PolicyGenerationStale | WorkloadGenerationStale
    | InvalidStrategy | StateGenerationStale

  const MAX_SHADOW_LAG: int := 0x100_0000_0000

  predicate RevalidationNeeded(f: Freshness) { f.MustRevalidate? }

  predicate StaleOrExpired(f: Freshness) { f.Stale? || f.TooOld? }

  predicate Forbidden(c: Candidate, q: Request) { c.strategy in q.forbidden }

  predicate NeedsLiveTarget(c: Candidate) { c.strategy != RECOMPUTE }

  function When(condition: bool, reason: Reason): seq<Reason> { if condition then [reason] else [] }

  // ---- Hard violations, rule by rule ----------------------------------------------------------

  function IdentityHard(c: Candidate): seq<Reason> {
    When(c.candidateId == 0 || c.generation == 0, InvalidCandidateGeneration)
    + When(c.strategy > RECOMPUTE, InvalidStrategy)
  }

  function AuthorityHard(c: Candidate, ctx: Context): seq<Reason> {
    match c.authority
    case None => []
    case Some(a) =>
      When(a.coordinatorEpoch != ctx.epoch, StaleAuthority)
      + When(a.policyGeneration != ctx.policyGeneration, PolicyGenerationStale)
  }

  function StateHard(c: Candidate, q: Request): seq<Reason> {
    match c.state
    case None => []
    case Some(st) =>
      When(st.workloadGeneration != q.workloadGeneration && st.workloadGeneration != 0, WorkloadGenerationStale)
      + When(st.integrity.Corrupt?, InvalidStateIntegrity)
      + When(st.freshness.TooOld?, ExpiredState)
      + When(st.stateGeneration != c.stateGeneration, StateGenerationStale)
  }

  function CheckpointHard(c: Candidate): seq<Reason> {
    When(c.checkpointStateGeneration.Some? && c.checkpointStateGeneration.value != c.stateGeneration, StateGenerationStale)
  }

  /** The name a subject is looked up under: its state format, or "unqualified". */
  function CompatibilityTarget(co: CompatibilityEvidence): text {
    if co.stateFormat == [] then [117, 110, 113, 117, 97, 108, 105, 102, 105, 101, 100] else co.stateFormat
  }

  predicate TableRejects(co: CompatibilityEvidence, ctx: Context) {
    co.subject != [] && co.subject in ctx.compatibilityTable && !ctx.IsCompatible(co.subject, CompatibilityTarget(co))
  }

  function CompatibilityHard(c: Candidate, ctx: Context): seq<Reason> {
    match c.compatibility
    case None => []
    case Some(co) =>
      When(co.result.Incompatible?, IncompatibleTarget)
      + When(co.generation != ctx.compatibilityGeneration, CompatibilityGenerationStale)
      + When(TableRejects(co, ctx), IncompatibleTarget)
  }

  function TargetHard(c: Candidate, ctx: Context): seq<Reason> {
    if NeedsLiveTarget(c) && c.availability.Some? then
      var av := c.availability.value;
      When(!av.isAlive || !ctx.WorkerIsCurrent(av.worker), TargetUnavailable)
      + When(!ctx.WorkerBootMatches(av.worker, av.boot), TargetIncarnationMismatch)
      + When(av.readiness.NotReady?, ReadinessFailed)
    else []
  }

  function ResourceHard(c: Candidate, ctx: Context): seq<Reason> {
    match c.resource
    case None => []
    case Some(rs) =>
      When(rs.status.Unavailable?, InsufficientResources)
      + When(rs.required.Some? && rs.available.Some? && rs.available.value < rs.required.value, InsufficientResources)
      + When(rs.generation != ctx.resourceGeneration, ResourceGenerationStale)
  }

  /** The planner's own view of the resource does not guarantee what the evidence claims. */
  predicate ViewDisagrees(c: Candidate, ctx: Context) {
    && c.resource.Some?
    && c.resource.value.required.Some? && c.resource.value.available.Some?
    && c.resource.value.kind != []
    && !ctx.ResourceSufficient(c.resource.value.kind, c.resource.value.required.value)
  }

  function TopologyHard(c: Candidate, ctx: Context): seq<Reason> {
    if c.strategy == MIGRATE && c.topology.Some? then
      When(!c.topology.value.pathPossible, TopologyImpossible)
      + When(c.topology.value.generation != ctx.topologyGeneration, TopologyImpossible)
    else []
  }

  function MigrationHard(c: Candidate): seq<Reason> {
    When(c.strategy == MIGRATE && (c.sourceWorker == 0 || c.sourceWorker == c.targetWorker), InvalidMigrationRelation)
  }

  function MigrationSoft(c: Candidate): seq<Reason> {
    When(c.strategy == MIGRATE && c.state.None?, MissingEvidence)
    + When(c.strategy == MIGRATE && !c.hasTransfer, MissingEvidence)
  }

  function ShadowHard(c: Candidate): seq<Reason> {
    if c.strategy == SHADOW_PROMOTE && c.shadow.Some? then
      var sh := c.shadow.value;
      When(!sh.readiness.Ready?, ReadinessFailed)
      + When(sh.lag > 0 && sh.lag > MAX_SHADOW_LAG, ShadowNotCurrent)
      + When(sh.compatibility.Incompatible?, IncompatibleTarget)
    else []
  }

  function RecomputeHard(c: Candidate, q: Request, ctx: Context): seq<Reason> {
    When(c.strategy == RECOMPUTE && !ctx.RecomputeAvailable(q.workloadGeneration), NoRecomputeLineage)
  }

  /** Hard violations of the rules up to and including the resource rule. */
  function HardUpToResources(c: Candidate, q: Request, ctx: Context): seq<Reason> {
    IdentityHard(c) + AuthorityHard(c, ctx) + StateHard(c, q) + CheckpointHard(c) + CompatibilityHard(c, ctx)
    + TargetHard(c, ctx) + ResourceHard(c, ctx)
  }

  function HardAfterResources(c: Candidate, q: Request, ctx: Context): seq<Reason> {
    TopologyHard(c, ctx) + MigrationHard(c) + ShadowHard(c) + RecomputeHard(c, q, ctx)
  }

  predicate Blocked(c: Candidate, q: Request, ctx: Context) {
    HardUpToResources(c, q, ctx) != [] || HardAfterResources(c, q, ctx) != []
  }

  /** Everything recorded, in order; the resource view is recorded only when nothing hard precedes it. */
  function Violations(c: Candidate, q: Request, ctx: Context): seq<Reason> {
    if Forbidden(c, q) then [ForbiddenStrategy]
    else
      HardUpToResources(c, q, ctx)
      + When(HardUpToResources(c, q, ctx) == [] && ViewDisagrees(c, ctx), InsufficientResources)
      + TopologyHard(c, ctx) + MigrationHard(c) + MigrationSoft(c) + ShadowHard(c) + RecomputeHard(c, q, ctx)
  }

  // ---- Evidence that is missing, outdated or not ready ----------------------------------------

  predicate StateLacking(c: Candidate) {
    c.state.None? || StaleOrExpired(c.state.value.freshness)
    || c.state.value.integrity.Uncertain? || c.state.value.integrity.NotVerified? || c.state.value.integrity.IntegrityUnknown?
  }

  predicate CompatibilityLacking(c: Candidate, q: Request) {
    if c.compatibility.None? then q.compatibilityRequirements != []
    else c.compatibility.value.result.CompatibilityUnknown? || c.compatibility.value.result.NotEnoughEvidence?
  }

  predicate TargetLacking(c: Candidate) {
    NeedsLiveTarget(c)
    && (c.availability.None? || c.availability.value.readiness.ReadinessUnknown? || StaleOrExpired(c.availability.value.freshness))
  }

  predicate ResourceLacking(c: Candidate, ctx: Context) {
    c.resource.None? || (c.resource.value.required.Some? && c.resource.value.available.None?) || ViewDisagrees(c, ctx)
    || c.resource.value.status.StatusUnknown? || StaleOrExpired(c.resource.value.freshness)
  }

  predicate StrategyLacking(c: Candidate) {
    || (c.strategy == MIGRATE && (c.topology.None? || c.state.None? || !c.state.value.isDurable || !c.hasTransfer))
    || (c.strategy == SHADOW_PROMOTE && c.shadow.None?)
    || (c.strategy == RECOMPUTE && (c.cost.None? || c.cost.value.recomputeTime.None?))
  }

  predicate Lacking(c: Candidate, q: Request, ctx: Context) {
    c.authority.None? || StateLacking(c) || CompatibilityLacking(c, q) || TargetLacking(c) || ResourceLacking(c, ctx)
    || StrategyLacking(c)
  }

  predicate MustBeRevalidated(c: Candidate) {
    || (c.state.Some? && RevalidationNeeded(c.state.value.freshness))
    || (c.compatibility.Some? && RevalidationNeeded(c.compatibility.value.freshness))
    || (NeedsLiveTarget(c) && c.availability.Some? && RevalidationNeeded(c.availability.value.freshness))
    || (c.resource.Some? && RevalidationNeeded(c.resource.value.freshness))
  }

  predicate Deferred(c: Candidate) {
    NeedsLiveTarget(c) && c.availability.Some? && c.availability.value.readiness.Warming?
  }

  function Evaluate(c: Candidate, q: Request, ctx: Context): Verdict {
    if Forbidden(c, q) || Blocked(c, q, ctx) then Infeasible
    else if Lacking(c, q, ctx) then InsufficientEvidence
    else if MustBeRevalidated(c) then RevalidationRequired
    else if Deferred(c) then Defer
    else Feasible
  }

  // ---- The evaluation, rule group by rule group ------------------------------------------------
  // Each group pushes its hard violations and raises flags, in the order of the original.

  method IdentityAndAuthorityRules(c: Candidate, ctx: Context) returns (hard: seq<Reason>, insufficient: bool)
    ensures hard == IdentityHard(c) + AuthorityHard(c, ctx)
    ensures insufficient == c.authority.None?
  {
    insufficient := false;
    hard := When(c.candidateId == 0 || c.generation == 0, InvalidCandidateGeneration);
    hard := hard + When(c.strategy > RECOMPUTE, InvalidStrategy);
    if c.authority.Some? {
      hard := hard + (When(c.authority.value.coordinatorEpoch != ctx.epoch, StaleAuthority)
                      + When(c.authority.value.policyGeneration != ctx.policyGeneration, PolicyGenerationStale));
    } else {
      insufficient := true;
    }
  }

  method StateRules(c: Candidate, q: Request) returns (hard: seq<Reason>, insufficient: bool, revalidation: bool)
    ensures hard == StateHard(c, q) + CheckpointHard(c)
    ensures insufficient == StateLacking(c)
    ensures revalidation == (c.state.Some? && RevalidationNeeded(c.state.value.freshness))
  {
    hard, insufficient, revalidation := [], false, false;
    if c.state.Some? {
      var st := c.state.value;
      hard := When(st.workloadGeneration != q.workloadGeneration && st.workloadGeneration != 0, WorkloadGenerationStale);
      hard := hard + When(st.integrity.Corrupt?, InvalidStateIntegrity);
      hard := hard + When(st.freshness.TooOld?, ExpiredState);
      insufficient := StaleOrExpired(st.freshness);
      revalidation := RevalidationNeeded(st.freshness);
      insufficient := insufficient || st.integrity.Uncertain? || st.integrity.NotVerified? || st.integrity.IntegrityUnknown?;
      hard := hard + When(st.stateGeneration != c.stateGeneration, StateGenerationStale);
    } else {
      insufficient := true;
    }
    hide When;
    hard := hard + When(c.checkpointStateGeneration.Some? && c.checkpointStateGeneration.value != c.stateGeneration,
                        StateGenerationStale);
  }

  method CompatibilityRules(c: Candidate, q: Request, ctx: Context)
    returns (hard: seq<Reason>, insufficient: bool, revalidation: bool)
    ensures hard == CompatibilityHard(c, ctx)
    ensures insufficient == CompatibilityLacking(c, q)
    ensures revalidation == (c.compatibility.Some? && RevalidationNeeded(c.compatibility.value.freshness))
  {
    hard, insufficient, revalidation := [], false, false;
    if c.compatibility.Some? {
      var co := c.compatibility.value;
      if co.result.Incompatible? {
        hard := hard + [IncompatibleTarget];
      }
      if co.generation != ctx.compatibilityGeneration {
        hard := hard + [CompatibilityGenerationStale];
      }
      if co.result.CompatibilityUnknown? || co.result.NotEnoughEvidence? {
        insufficient := true;
      }
      if RevalidationNeeded(co.freshness) {
        revalidation := true;
      }
      if co.subject != [] && co.subject in ctx.compatibilityTable {
        if !ctx.IsCompatible(co.subject, CompatibilityTarget(co)) {
          hard := hard + [IncompatibleTarget];
        }
      }
    } else if q.compatibilityRequirements != [] {
      insufficient := true;
    }
  }

  method TargetRules(c: Candidate, ctx: Context)
    returns (hard: seq<Reason>, insufficient: bool, revalidation: bool, defer: bool)
    ensures hard == TargetHard(c, ctx)
    ensures insufficient == TargetLacking(c)
    ensures revalidation == (NeedsLiveTarget(c) && c.availability.Some? && RevalidationNeeded(c.availability.value.freshness))
    ensures defer == Deferred(c)
  {
    hard, insufficient, revalidation, defer := [], false, false, false;
    if c.strategy != RECOMPUTE {
      if c.availability.Some? {
        var av := c.availability.value;
        if !av.isAlive || !ctx.WorkerIsCurrent(av.worker) {
          hard := hard + [TargetUnavailable];
        }
        if !ctx.WorkerBootMatches(av.worker, av.boot) {
          hard := hard + [TargetIncarnationMismatch];
        }
        if av.readiness.NotReady? {
          hard := hard + [ReadinessFailed];
        }
        if av.readiness.Warming? {
          defer := true;
        }
        if av.readiness.ReadinessUnknown? {
          insufficient := true;
        }
        if StaleOrExpired(av.freshness) {
          insufficient := true;
        }
        if RevalidationNeeded(av.freshness) {
          revalidation := true;
        }
      } else {
        insufficient := true;
      }
    }
  }

  /** The resource view is consulted, and recorded, only while nothing hard has been found. */
  method ResourceRules(c: Candidate, ctx: Context, blocked: bool)
    returns (hard: seq<Reason>, soft: seq<Reason>, insufficient: bool, revalidation: bool)
    ensures hard == ResourceHard(c, ctx)
    ensures soft == When(!blocked && hard == [] && ViewDisagrees(c, ctx), InsufficientResources)
    ensures insufficient ==> ResourceLacking(c, ctx)
    ensures !blocked && hard == [] ==> insufficient == ResourceLacking(c, ctx)
    ensures revalidation == (c.resource.Some? && RevalidationNeeded(c.resource.value.freshness))
  {
    hard, soft, insufficient, revalidation := [], [], false, false;
    if c.resource.Some? {
      var rs := c.resource.value;
      if rs.status.Unavailable? {
        hard := hard + [InsufficientResources];
      }
      if rs.required.Some? && rs.available.Some? {
        if rs.available.value < rs.required.value {
          hard := hard + [InsufficientResources];
        }
      }
      if rs.generation != ctx.resourceGeneration {
        hard := hard + [ResourceGenerationStale];
      }
      if rs.required.Some? && rs.available.None? {
        insufficient := true;
      }
      if rs.required.Some? && rs.available.Some? {
        if rs.kind != [] && !ctx.ResourceSufficient(rs.kind, rs.required.value) {
          if !blocked && hard == [] {
            soft := [InsufficientResources];
            insufficient := true;
          }
        }
      }
      if rs.status.StatusUnknown? {
        insufficient := true;
      }
      if RevalidationNeeded(rs.freshness) {
        revalidation := true;
      }
      if StaleOrExpired(rs.freshness) {
        insufficient := true;
      }
    } else {
      insufficient := true;
    }
  }

  method MigrationRules(c: Candidate, ctx: Context) returns (found: seq<Reason>, hard: bool, insufficient: bool)
    ensures found == TopologyHard(c, ctx) + MigrationHard(c) + MigrationSoft(c)
    ensures hard == (TopologyHard(c, ctx) + MigrationHard(c) != [])
    ensures insufficient ==
              (c.strategy == MIGRATE && (c.topology.None? || c.state.None? || !c.state.value.isDurable || !c.hasTransfer))
  {
    found, hard, insufficient := [], false, false;
    if c.strategy == MIGRATE {
      if c.topology.Some? {
        found := When(!c.topology.value.pathPossible, TopologyImpossible);
        found := found + When(c.topology.value.generation != ctx.topologyGeneration, TopologyImpossible);
      } else {
        insufficient := true;
      }
      found := found + When(c.sourceWorker == 0 || c.sourceWorker == c.targetWorker, InvalidMigrationRelation);
      hard := found != [];
      if c.state.None? || !c.state.value.isDurable {
        insufficient := true;
      }
      found := found + (When(c.state.None?, MissingEvidence) + When(!c.hasTransfer, MissingEvidence));
      if !c.hasTransfer {
        insufficient := true;
      }
    }
  }

  method ShadowRules(c: Candidate) returns (hard: seq<Reason>, insufficient: bool)
    ensures hard == ShadowHard(c)
    ensures insufficient == (c.strategy == SHADOW_PROMOTE && c.shadow.None?)
  {
    hard, insufficient := [], false;
    if c.strategy == SHADOW_PROMOTE {
      if c.shadow.Some? {
        var sh := c.shadow.value;
        hard := When(!sh.readiness.Ready?, ReadinessFailed);
        hard := hard + When(sh.lag > 0 && sh.lag > MAX_SHADOW_LAG, ShadowNotCurrent);
        hard := hard + When(sh.compatibility.Incompatible?, IncompatibleTarget);
      } else {
        insufficient := true;
      }
    }
  }

  method RecomputeRules(c: Candidate, q: Request, ctx: Context) returns (hard: seq<Reason>, insufficient: bool)
    ensures hard == RecomputeHard(c, q, ctx)
    ensures insufficient == (c.strategy == RECOMPUTE && (c.cost.None? || c.cost.value.recomputeTime.None?))
  {
    hard, insufficient := [], false;
    if c.strategy == RECOMPUTE {
      hard := When(!ctx.RecomputeAvailable(q.workloadGeneration), NoRecomputeLineage);
      if c.cost.None? || c.cost.value.recomputeTime.None? {
        insufficient := true;
      }
    }
  }

  /** `evaluate_feasibility`: the rule groups in turn, then the flags in order of severity. */
  method EvaluateFeasibility(c: Candidate, q: Request, ctx: Context) returns (result: Verdict, violations: seq<Reason>)
    ensures result == Evaluate(c, q, ctx)
    ensures violations == Violations(c, q, ctx)
  {
    if c.strategy in q.forbidden {
      return Infeasible, [ForbiddenStrategy];
    }
    var identity, noAuthority := IdentityAndAuthorityRules(c, ctx);
    var state, noState, staleState := StateRules(c, q);
    var compat, noCompat, staleCompat := CompatibilityRules(c, q, ctx);
    var target, noTarget, staleTarget, warming := TargetRules(c, ctx);
    var before := identity + state + compat + target;
    var resource, view, noResource, staleResource := ResourceRules(c, ctx, before != []);
    var migration, cannotMigrate, noMigration := MigrationRules(c, ctx);
    var shadow, noShadow := ShadowRules(c);
    var recompute, noRecompute := RecomputeRules(c, q, ctx);
    var noRehydration := c.strategy == REHYDRATE && c.state.None?;
    hide IdentityHard;
    hide AuthorityHard;
    hide StateHard;
    hide CheckpointHard;
    hide CompatibilityHard;
    hide TargetHard;
    hide ResourceHard;
    hide TopologyHard;
    hide MigrationHard;
    hide MigrationSoft;
    hide ShadowHard;
    hide RecomputeHard;
    hide ViewDisagrees;
    hide ResourceLacking;
    hide TargetLacking;
    hide CompatibilityLacking;
    hide When;
    violations := before + resource + view + migration + shadow + recompute;
    GroupsConcatenate(c, q, ctx, identity, state, compat, target, resource, view, migration, shadow, recompute);
    var infeasible := before + resource != [] || cannotMigrate || shadow != [] || recompute != [];
    var insufficient := noAuthority || noState || noCompat || noTarget || noResource || noMigration || noShadow
                        || noRecompute || noRehydration;
    result :=
      if infeasible then Infeasible
      else if insufficient then InsufficientEvidence
      else if staleState || staleCompat || staleTarget || staleResource then RevalidationRequired
      else if warming then Defer
      else Feasible;
  }

  lemma GroupsConcatenate(c: Candidate, q: Request, ctx: Context, identity: seq<Reason>, state: seq<Reason>,
                          compat: seq<Reason>, target: seq<Reason>, resource: seq<Reason>, view: seq<Reason>,
                          migration: seq<Reason>, shadow: seq<Reason>, recompute: seq<Reason>)
    requires !Forbidden(c, q)
    requires identity == IdentityHard(c) + AuthorityHard(c, ctx) && state == StateHard(c, q) + CheckpointHard(c)
    requires compat == CompatibilityHard(c, ctx) && target == TargetHard(c, ctx) && resource == ResourceHard(c, ctx)
    requires view == When(identity + state + compat + target == [] && resource == [] && ViewDisagrees(c, ctx),
                          InsufficientResources)
    requires migration == TopologyHard(c, ctx) + MigrationHard(c) + MigrationSoft(c)
    requires shadow == ShadowHard(c) && recompute == RecomputeHard(c, q, ctx)
    ensures HardUpToResources(c, q, ctx) == identity + state + compat + target + resource
    ensures Violations(c, q, ctx) == identity + state + compat + target + resource + view + migration + shadow + recompute
  {
    hide IdentityHard;
    hide AuthorityHard;
    hide StateHard;
    hide CheckpointHard;
    hide CompatibilityHard;
    hide TargetHard;
    hide ResourceHard;
    hide TopologyHard;
    hide MigrationHard;
    hide MigrationSoft;
    hide ShadowHard;
    hide RecomputeHard;
    hide ViewDisagrees;
    assert HardUpToResources(c, q, ctx) == identity + state + compat + target + resource;
  }
}
