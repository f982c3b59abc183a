/** Plan transitions and fences (src/plan.cpp), and how a plan is built from a selected candidate. */
module Planning {
  import opened Integers
  import opened Domain
  import opened Evidence
  import opened Economics
  import opened Codec
  import opened Wording

  /** SHA-256, opaque: any function from bytes to 32 bytes. */
  type Digest = s: seq<byte> | |s| == 32 witness seq(32, i => 0)
  type Hash = seq<byte> -> Digest

  function ValidTransition(from: Life, to: Life): bool {
    if Terminal(from) then false
    else if to == from then true
    else
      match from
      case Requested => to.Evaluating? || to.Planned? || to.Cancelled? || to.Invalidated?
      case Evaluating => to.Planned? || to.Cancelled? || to.Invalidated?
      case Planned => to.Authorized? || to.Cancelled? || to.Invalidated? || to.Expired? || to.Superseded?
      case Authorized => to.Dispatched? || to.Cancelled? || to.Invalidated? || to.Expired? || to.Superseded?
      case Dispatched => to.Executing? || to.Failed? || to.Succeeded? || to.Invalidated? || to.Superseded?
      case Executing => to.Succeeded? || to.Failed? || to.Invalidated? || to.Superseded?
      case _ => false
  }

  predicate AuthorityCurrent(p: Plan, ctx: Context) {
    var a := p.authority;
    && a.coordinatorEpoch == ctx.epoch
    && a.policyGeneration == ctx.policyGeneration
    && a.compatibilityGeneration == ctx.compatibilityGeneration
    && a.resourceGeneration == ctx.resourceGeneration
    && a.topologyGeneration == ctx.topologyGeneration
    && a.workloadGeneration == ctx.workloadGeneration
    && ctx.WorkerIsCurrent(p.targetWorker)
    && ctx.WorkerBootMatches(p.targetWorker, p.targetBoot)
  }

  /** What the decision digest is taken of: request, candidate and generation fences, no plan ids. */
  function DigestInput(q: Request, c: Candidate, ctx: Context): Tokens {
    U64s([q.requestId, q.workload, q.workloadGeneration, q.execution, q.failure, ctx.epoch],
      Then(U8(c.strategy),
        U64s([c.candidateId, c.generation, c.targetWorker, c.targetBoot, c.stateSource, c.stateGeneration,
              ctx.policyGeneration, ctx.compatibilityGeneration, ctx.resourceGeneration], End)))
  }

  function DecisionDigest(q: Request, c: Candidate, ctx: Context, sha: Hash): (t: text)
    ensures Plain(t) && |t| == 64
  {
    Hex(sha(Encode(DigestInput(q, c, ctx))))
  }

  function BuildPlan(s: State, q: Request, c: Candidate, now: i64, sha: Hash): Plan {
    var ctx := s.ctx;
    Plan(s.nextPlanId, s.nextGeneration, q.requestId, q.workload, c.strategy, c.candidateId, c.generation,
         c.targetWorker, c.targetBoot, c.targetEngine, c.engineIncarnation, c.stateSource, c.stateGeneration,
         c.checkpointSource,
         Authority(ctx.epoch, ctx.plannerBoot, q.requestId, s.nextGeneration, c.generation, c.targetBoot,
                   c.engineIncarnation, c.stateGeneration, ctx.compatibilityGeneration, ctx.resourceGeneration,
                   ctx.policyGeneration, ctx.topologyGeneration, q.workloadGeneration),
         Planned, Unknown, false, now, now, 0, Payload(c), DecisionDigest(q, c, ctx, sha),
         EvaluateDeadline(c, q, now).outcome)
  }

  /** One plan under `supersede_older`. */
  function SupersededBy(p: Plan, requestId: u64, keep: u64, now: i64): Plan {
    if p.planId != keep && p.requestId == requestId && !Terminal(p.life) && ValidTransition(p.life, Superseded)
    then p.(life := Superseded, updatedAt := now)
    else p
  }

  function SupersedeOlder(plans: map<u64, Plan>, requestId: u64, keep: u64, now: i64): map<u64, Plan> {
    map k | k in plans :: SupersededBy(plans[k], requestId, keep, now)
  }

  /** The legal transitions, told from where they lead: from which states each state can be entered, or kept. */
  predicate EnteredFrom(to: Life, from: Life) {
    match to
    case Requested => from.Requested?
    case Evaluating => from.Requested? || from.Evaluating?
    case Planned => from.Requested? || from.Evaluating? || from.Planned?
    case Authorized => from.Planned? || from.Authorized?
    case Dispatched => from.Authorized? || from.Dispatched?
    case Executing => from.Dispatched? || from.Executing?
    case Succeeded => from.Dispatched? || from.Executing?
    case Failed => from.Dispatched? || from.Executing?
    case Superseded => from.Planned? || from.Authorized? || from.Dispatched? || from.Executing?
    case Cancelled => from.Requested? || from.Evaluating? || from.Planned? || from.Authorized?
    case Expired => from.Planned? || from.Authorized?
    case Invalidated =>
      from.Requested? || from.Evaluating? || from.Planned? || from.Authorized? || from.Dispatched? || from.Executing?
    case Unlisted(_) => from == to
  }

  lemma TransitionsAre(from: Life, to: Life)
    ensures ValidTransition(from, to) <==> EnteredFrom(to, from)
  {
  }

  /** Terminal states are exactly the ones without a legal transition, not even to themselves. */
  lemma TerminalMeansStuck(from: Life)
    requires !from.Unlisted?
    ensures Terminal(from) <==> forall to :: !ValidTransition(from, to)
  {
    assert !Terminal(from) ==> ValidTransition(from, from);
  }

  /** A dispatched plan can no longer be cancelled. */
  lemma DispatchedCannotBeCancelled(p: Life)
    ensures ValidTransition(p, Cancelled) <==> p.Requested? || p.Evaluating? || p.Planned? || p.Authorized?
  {
  }
}
