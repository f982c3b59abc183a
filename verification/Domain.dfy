/** Requests, plans, the planner's view of the world and its whole state. */
module Domain {
  import opened Integers

  /** A vector whose size fits the 32-bit count that a snapshot stores for it. */
  type Vec<T> = s: seq<T> | |s| < 0x1_0000_0000 witness []

  // ---- Enumerations ---------------------------------------------------------------------------
  // An enumeration read back from bytes may hold a value outside its list.

  /** `RecoveryStrategy`: the raw value, compared and persisted as such. */
  type Strategy = byte

  const RESTORE: Strategy := 0
  const RESTART: Strategy := 1
  const MIGRATE: Strategy := 2
  const REHYDRATE: Strategy := 3
  const SHADOW_PROMOTE: Strategy := 4
  const FAILOVER: Strategy := 5
  const RECOMPUTE: Strategy := 6

  datatype Life =
    | Requested | Evaluating | Planned | Authorized | Dispatched | Executing
    | Succeeded | Failed | Superseded | Cancelled | Expired | Invalidated
    | Unlisted(code: byte)

  datatype Outcome = Success | Failure | Ambiguous | Unknown | Withdrawn | OtherOutcome(code: byte)

  datatype DeadlineOutcome = HardFeasible | ConditionallyFeasible | Violated | NoDeadline | NotKnown

  predicate Terminal(s: Life) {
    s.Succeeded? || s.Failed? || s.Cancelled? || s.Expired? || s.Invalidated? || s.Superseded?
  }

  // ---- Requests and plans ---------------------------------------------------------------------

  datatype Request = Request(
    requestId: u64,
    workload: u64,
    workloadGeneration: u64,
    execution: u64,
    executionGeneration: u64,
    failure: u64,
    reason: text,
    recoveryDeadline: Option<i64>,
    maxDuration: Option<i64>,
    maxLoss: Option<u64>,
    preferred: Vec<Strategy>,
    forbidden: Vec<Strategy>,
    coordinatorEpoch: u64,
    policyGeneration: u64,
    topologyGeneration: u64,
    requestedAt: i64,
    stateRequirements: Vec<text>,
    placementConstraints: Vec<text>,
    compatibilityRequirements: Vec<text>)

  datatype Authority = Authority(
    coordinatorEpoch: u64,
    plannerBoot: u64,
    requestId: u64,
    planGeneration: u64,
    candidateGeneration: u64,
    targetBoot: u64,
    engineIncarnation: u64,
    stateGeneration: u64,
    compatibilityGeneration: u64,
    resourceGeneration: u64,
    policyGeneration: u64,
    topologyGeneration: u64,
    workloadGeneration: u64)

  datatype Plan = Plan(
    planId: u64,
    generation: u64,
    requestId: u64,
    workload: u64,
    strategy: Strategy,
    candidateId: u64,
    candidateGeneration: u64,
    targetWorker: u64,
    targetBoot: u64,
    targetEngine: u64,
    engineIncarnation: u64,
    stateSource: u64,
    stateGeneration: u64,
    checkpointSource: u64,
    authority: Authority,
    life: Life,
    outcome: Outcome,
    published: bool,
    createdAt: i64,
    updatedAt: i64,
    lastAttempt: u64,
    payload: text,
    digest: text,
    deadline: DeadlineOutcome)

  // ---- The world and the planner --------------------------------------------------------------

  datatype Context = Context(
    epoch: u64,
    plannerBoot: u64,
    workloadGeneration: u64,
    policyGeneration: u64,
    compatibilityGeneration: u64,
    resourceGeneration: u64,
    topologyGeneration: u64,
    workerBoots: map<u64, u64>,
    aliveWorkers: set<u64>,
    resources: map<text, u64>,
    compatibilityTable: map<text, set<text>>,
    recomputeLineage: set<u64>,
    originalInputs: set<u64>)
  {
    predicate WorkerIsCurrent(w: u64) { w in aliveWorkers }

    predicate WorkerBootMatches(w: u64, boot: u64) { w in workerBoots && workerBoots[w] == boot }

    predicate ResourceSufficient(kind: text, required: u64) { kind in resources && resources[kind] >= required }

    predicate IsCompatible(subject: text, target: text) {
      subject in compatibilityTable && target in compatibilityTable[subject]
    }

    predicate RecomputeAvailable(generation: u64) {
      generation in recomputeLineage && generation in originalInputs
    }

    function RegisterWorker(w: u64, boot: u64): Context {
      this.(workerBoots := workerBoots[w := boot], aliveWorkers := aliveWorkers + {w})
    }

    function UnregisterWorker(w: u64): Context {
      this.(aliveWorkers := aliveWorkers - {w})
    }

    function SetResource(kind: text, amount: u64): Context {
      this.(resources := resources[kind := amount])
    }

    function SetRecompute(generation: u64, available: bool): Context {
      if available then
        this.(recomputeLineage := recomputeLineage + {generation}, originalInputs := originalInputs + {generation})
      else
        this.(recomputeLineage := recomputeLineage - {generation}, originalInputs := originalInputs - {generation})
    }
  }

  /** What the dispatch table remembers about a dispatch id. */
  datatype DispatchEntry = DispatchEntry(planId: u64, generation: u64, targetBoot: u64)

  datatype State = State(
    ctx: Context,
    plans: map<u64, Plan>,
    requests: map<u64, Request>,
    dispatches: map<u64, DispatchEntry>,
    history: seq<text>,
    nextPlanId: u64,
    nextGeneration: u64)

  /** A planner that has just been constructed. */
  const INITIAL: State :=
    State(Context(1, 1, 1, 1, 1, 1, 1, map[], {}, map[], map[], {}, {}), map[], map[], map[], [], 1, 1)
}
