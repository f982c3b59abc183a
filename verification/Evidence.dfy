/** Recovery candidates and the evidence that planning reads from them. */
module Evidence {
  import opened Integers
  import opened Domain

  datatype Freshness = Current | Stale | MustRevalidate | TooOld | FreshnessUnknown

  datatype Integrity = Valid | Corrupt | Uncertain | NotVerified | IntegrityUnknown

  datatype Compatibility =
    | Exact | Compatible | WithAdaptation | Conditional | Incompatible | CompatibilityUnknown | NotEnoughEvidence

  datatype Readiness = Ready | NotReady | Warming | ReadinessUnknown

  datatype ResourceStatus = Available | Unavailable | Contended | StatusUnknown

  datatype StateEvidence = StateEvidence(
    freshness: Freshness, stateGeneration: u64, workloadGeneration: u64, integrity: Integrity, isDurable: bool)

  datatype CompatibilityEvidence = CompatibilityEvidence(
    freshness: Freshness, generation: u64, result: Compatibility, subject: text, stateFormat: text)

  datatype AvailabilityEvidence = AvailabilityEvidence(
    freshness: Freshness, worker: u64, boot: u64, isAlive: bool, readiness: Readiness)

  datatype ResourceEvidence = ResourceEvidence(
    freshness: Freshness, generation: u64, kind: text, required: Option<u64>, available: Option<u64>, status: ResourceStatus)

  datatype TopologyEvidence = TopologyEvidence(generation: u64, pathPossible: bool)

  datatype ShadowEvidence = ShadowEvidence(readiness: Readiness, lag: i64, compatibility: Compatibility)

  datatype CostEvidence = CostEvidence(
    expectedTime: Option<i64>, recomputeTime: Option<i64>, costUnits: Option<u64>,
    lostProgress: Option<u64>, preservedProgress: Option<u64>, risk: byte)

  datatype AuthorityEvidence = AuthorityEvidence(coordinatorEpoch: u64, policyGeneration: u64, confidence: u16)

  datatype Candidate = Candidate(
    candidateId: u64,
    generation: u64,
    strategy: Strategy,
    targetWorker: u64,
    targetBoot: u64,
    targetEngine: u64,
    engineIncarnation: u64,
    sourceWorker: u64,
    stateSource: u64,
    stateGeneration: u64,
    checkpointSource: u64,
    state: Option<StateEvidence>,
    compatibility: Option<CompatibilityEvidence>,
    availability: Option<AvailabilityEvidence>,
    resource: Option<ResourceEvidence>,
    topology: Option<TopologyEvidence>,
    hasTransfer: bool,
    checkpointStateGeneration: Option<u64>,
    shadow: Option<ShadowEvidence>,
    cost: Option<CostEvidence>,
    authority: Option<AuthorityEvidence>)
}
