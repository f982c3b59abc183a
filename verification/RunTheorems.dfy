/** What holds of every run from a fresh planner. */
module RunTheorems {
  import opened Integers
  import opened Domain
  import opened Evidence
  import opened Selection
  import opened Planning
  import opened Lifecycle
  import opened Runs
  import opened Causes
  import Effects
  import Feasibility
  import FeasibilityProofs
  import Restart
  import Wording

  /** The hash function that a planner uses, steps, and the states before, between and after them. */
  datatype RawRun = RawRun(sha: Hash, labels: seq<Label>, states: seq<State>) {
    /** The state after the first `n` steps. */
    function At(n: nat): State
      requires n < |states|
    {
      states[n]
    }

    ghost predicate Steps(n: nat)
      requires n < |labels| && |states| == |labels| + 1
    {
      states[n + 1] == Step(states[n], labels[n], sha)
    }

    /** How many of the first `n` steps may have added an entry or drawn an id. */
    function Added(n: nat): nat
      requires n <= |labels|
    {
      if n == 0 then 0 else Added(n - 1) + Weight(labels[n - 1])
    }

    /** Neither the 32-bit counts of a snapshot nor the 64-bit ids wrap around. */
    predicate Bounded() { Added(|labels|) < TWO_32 }

    /** A run of a fresh planner: every state follows from the one before by its step. */
    ghost predicate Legal()
      requires |states| == |labels| + 1
    {
      states[0] == INITIAL && Bounded() && forall n :: 0 <= n < |labels| ==> Steps(n)
    }
  }

  type Run = r: RawRun | |r.states| == |r.labels| + 1 witness RawRun(_ => seq(32, _ => 0), [], [INITIAL])

  /** Whatever steps are taken from a fresh planner, there is a run that takes them. */
  lemma {:induction false} EveryStepSequenceRuns(sha: Hash, labels: seq<Label>) returns (r: Run)
    ensures r.sha == sha && r.labels == labels && r.states[0] == INITIAL
    ensures forall n :: 0 <= n < |labels| ==> r.Steps(n)
    decreases |labels|
  {
    hide Step;
    if labels == [] {
      r := RawRun(sha, [], [INITIAL]);
    } else {
      var m := |labels| - 1;
      var front := EveryStepSequenceRuns(sha, labels[..m]);
      r := RawRun(sha, labels, front.states + [Step(front.states[m], labels[m], sha)]);
      forall n | 0 <= n < |labels| ensures r.Steps(n) {
        assert n < m ==> front.Steps(n);
      }
    }
  }

  lemma {:induction false} AddedGrows(r: Run, i: nat, j: nat)
    requires i <= j <= |r.labels|
    ensures r.Added(i) <= r.Added(j)
    decreases j
  {
    if i < j {
      AddedGrows(r, i, j - 1);
    }
  }

  lemma {:induction false} AddedAtMost(r: Run, n: nat)
    requires n <= |r.labels|
    ensures r.Added(n) <= n
    decreases n
  {
    if n > 0 {
      AddedAtMost(r, n - 1);
    }
  }

  lemma InitialInv()
    ensures Inv(INITIAL, 0)
  {
  }

  /** The invariant holds after any number of steps. */
  lemma {:induction false} Reachable(r: Run, n: nat)
    requires r.Legal() && n <= |r.labels|
    ensures Inv(r.At(n), r.Added(n))
    decreases n
  {
    hide Inv;
    hide Step;
    hide PlansMove;
    hide Weight;
    if n == 0 {
      InitialInv();
    } else {
      Reachable(r, n - 1);
      AddedGrows(r, n - 1, |r.labels|);
      assert r.Steps(n - 1);
      StepKeeps(r.At(n - 1), r.labels[n - 1], r.sha, r.Added(n - 1));
    }
  }

  /** Every plan survives every step, and its life stays or enters a state from one that may lead there. */
  lemma LegalMoves(r: Run, n: nat, id: u64)
    requires r.Legal() && n < |r.labels| && id in r.At(n).plans
    ensures id in r.At(n + 1).plans && Moves(r.At(n).plans[id], r.At(n + 1).plans[id])
    ensures var from, to := r.At(n).plans[id].life, r.At(n + 1).plans[id].life; to == from || EnteredFrom(to, from)
  {
    Reachable(r, n);
    AddedGrows(r, n, |r.labels|);
    assert r.Steps(n);
    hide Inv;
    hide Step;
    StepKeeps(r.At(n), r.labels[n], r.sha, r.Added(n));
    TransitionsAre(r.At(n).plans[id].life, r.At(n + 1).plans[id].life);
    hide Evolves;
    hide ValidTransition;
    hide EnteredFrom;
  }

  lemma EvolvesIsTransitive(p: Plan, q: Plan, o: Plan)
    requires Evolves(p, q) && Evolves(q, o)
    ensures Evolves(p, o)
  {
  }

  /**
   Over any stretch of a run, whatever the interleaving, whatever the executor reports and however
   often the coordinator restarts: a plan is never lost, never becomes another plan, and once it is
   terminal its state, outcome, published flag and attempt count never change again.
   */
  lemma {:induction false} PlansEvolveOverRuns(r: Run, i: nat, j: nat, id: u64)
    requires r.Legal() && i <= j <= |r.labels| && id in r.At(i).plans
    ensures id in r.At(j).plans && Evolves(r.At(i).plans[id], r.At(j).plans[id])
    decreases j
  {
    hide *;
    if i == j {
      NothingMoves(r.At(i).plans[id]);
      MovesEvolves(r.At(i).plans[id], r.At(i).plans[id]);
    } else {
      PlansEvolveOverRuns(r, i, j - 1, id);
      LegalMoves(r, j - 1, id);
      MovesEvolves(r.At(j - 1).plans[id], r.At(j).plans[id]);
      EvolvesIsTransitive(r.At(i).plans[id], r.At(j - 1).plans[id], r.At(j).plans[id]);
    }
  }

  lemma MovesEvolves(p: Plan, q: Plan)
    requires Moves(p, q)
    ensures Evolves(p, q)
  {
  }

  lemma TerminalIsForever(r: Run, i: nat, j: nat, id: u64)
    requires r.Legal() && i <= j <= |r.labels|
    requires id in r.At(i).plans && Terminal(r.At(i).plans[id].life)
    ensures id in r.At(j).plans && SameStatus(r.At(i).plans[id], r.At(j).plans[id])
  {
    PlansEvolveOverRuns(r, i, j, id);
  }

  /** At any time a request has at most one live plan. */
  lemma OneLivePlanPerRequest(r: Run, n: nat, j: u64, k: u64)
    requires r.Legal() && n <= |r.labels|
    requires j in r.At(n).plans && k in r.At(n).plans
    requires !Terminal(r.At(n).plans[j].life) && !Terminal(r.At(n).plans[k].life)
    requires r.At(n).plans[j].requestId == r.At(n).plans[k].requestId
    ensures j == k
  {
    Reachable(r, n);
    hide PlansOk;
    hide TableOk;
    hide RestOk;
  }

  /** What holds of a plan at any time of a run. */
  lemma PlanAt(r: Run, n: nat, id: u64)
    requires r.Legal() && n <= |r.labels| && id in r.At(n).plans
    ensures var s := r.At(n); PlanOk(s.plans[id], id, s.ctx.epoch, s.ctx.plannerBoot, s.nextPlanId)
  {
    Reachable(r, n);
    hide PlanOk;
    hide OneLivePlan;
    hide TableOk;
    hide RestOk;
  }

  /**
   An outcome is published exactly when it is a success of a succeeded plan or a failure of a failed one:
   never an ambiguous, unknown or withdrawn one, never one of a cancelled or rejected dispatch.
   */
  lemma PublishedMeans(r: Run, n: nat, id: u64)
    requires r.Legal() && n <= |r.labels| && id in r.At(n).plans
    ensures var p := r.At(n).plans[id];
            && (p.published <==> (p.life.Succeeded? && p.outcome.Success?) || (p.life.Failed? && p.outcome.Failure?))
            && (p.life.Succeeded? <==> p.outcome.Success?)
  {
    PlanAt(r, n, id);
    hide Identified;
    hide Fenced;
    hide Wording.Plain;
  }

  /** A live plan belongs to the current coordinator epoch and planner boot. */
  lemma LivePlanIsOfThisEpoch(r: Run, n: nat, id: u64)
    requires r.Legal() && n <= |r.labels| && id in r.At(n).plans && !Terminal(r.At(n).plans[id].life)
    ensures r.At(n).plans[id].authority.coordinatorEpoch == r.At(n).ctx.epoch
    ensures r.At(n).plans[id].authority.plannerBoot == r.At(n).ctx.plannerBoot
  {
    PlanAt(r, n, id);
    hide RawRun.At;
    hide Identified;
    hide Counted;
    hide Accounted;
    hide Wording.Plain;
  }

  // ---- Where plans come from ------------------------------------------------------------------

  lemma StepAt(r: Run, n: nat)
    requires r.Legal() && n < |r.labels|
    ensures Inv(r.At(n), r.Added(n)) && r.Added(n) < TWO_32
    ensures r.At(n + 1) == Step(r.At(n), r.labels[n], r.sha)
    ensures Effect(r.At(n), r.labels[n], r.At(n + 1))
  {
    Reachable(r, n);
    AddedGrows(r, n, |r.labels|);
    assert r.Steps(n);
    hide Inv;
    hide Step;
    hide Effect;
    StepEffect(r.At(n), r.labels[n], r.sha, r.Added(n));
  }

  /** Plan `id` is made by step `n`. */
  ghost predicate Born(r: Run, n: nat, id: u64)
    requires n < |r.labels|
  {
    id !in r.At(n).plans && id in r.At(n + 1).plans
  }

  /**
   Ids are never reused: a plan is made by a `plan` call only, under an id greater than the id of every
   plan there was at any time before, PLANNED, without an attempt, under the epoch and boot of its time.
   */
  lemma IdsAreFresh(r: Run, n: nat, id: u64, m: nat, other: u64)
    requires r.Legal() && n < |r.labels| && Born(r, n, id)
    requires m <= n && other in r.At(m).plans
    ensures r.labels[n].PlanCall? && Newborn(r.At(n), id, r.At(n + 1).plans[id])
    ensures other < id
  {
    StepAt(r, n);
    PlansEvolveOverRuns(r, m, n, other);
    PlanAt(r, n, other);
    hide Step;
    hide Inv;
    hide Evolves;
    hide Counted;
    hide Accounted;
    hide Fenced;
    hide Wording.Plain;
    hide Quiet;
  }

  // ---- Hand-offs ------------------------------------------------------------------------------

  /** Step `n` hands plan `id` to an executor. */
  ghost predicate HandsOff(r: Run, n: nat, id: u64)
    requires n < |r.labels|
  {
    r.labels[n].BeginCall? && r.labels[n].id == id && BeginDispatch(r.At(n), id, r.labels[n].now).Done?
  }

  /** Step `n` authorizes plan `id`. */
  ghost predicate Authorizes(r: Run, n: nat, id: u64)
    requires n < |r.labels|
  {
    r.labels[n].AuthorizeCall? && r.labels[n].id == id && AuthorizePlan(r.At(n), id, r.labels[n].now).Done?
  }

  lemma HandOffCounts(r: Run, n: nat, id: u64)
    requires r.Legal() && n < |r.labels| && HandsOff(r, n, id)
    ensures id in r.At(n).plans && r.At(n).plans[id].lastAttempt == 0 && r.At(n).plans[id].life.Authorized?
    ensures id in r.At(n + 1).plans && r.At(n + 1).plans[id].lastAttempt == 1
  {
    StepAt(r, n);
    var s := r.At(n);
    BeginIsOfAuthorized(s, id, r.labels[n].now);
    PlanAt(r, n, id);
    AttemptBeforeDispatch(s.plans[id], id, s.ctx.epoch, s.ctx.plannerBoot, s.nextPlanId);
    BeginKeeps(s, id, r.labels[n].now, r.Added(n));
    hide Inv;
    hide Effect;
    hide PlanOk;
    hide BeginDispatch;
    hide PlansMove;
  }

  /** No plan is handed to an executor twice. */
  lemma AtMostOneHandOff(r: Run, i: nat, j: nat, id: u64)
    requires r.Legal() && i < |r.labels| && j < |r.labels|
    requires HandsOff(r, i, id) && HandsOff(r, j, id)
    ensures i == j
  {
    var a, b := if i < j then i else j, if i < j then j else i;
    hide *;
    HandOffCounts(r, a, id);
    HandOffCounts(r, b, id);
    if a < b {
      PlansEvolveOverRuns(r, a + 1, b, id);
      AttemptsGrow(r.At(a + 1).plans[id], r.At(b).plans[id]);
    }
  }

  lemma AttemptsGrow(p: Plan, q: Plan)
    requires Evolves(p, q)
    ensures p.lastAttempt <= q.lastAttempt
  {
  }

  /** A plan counts an attempt exactly when it has been handed off. */
  lemma {:induction false} AttemptMeansHandedOff(r: Run, n: nat, id: u64)
    requires r.Legal() && n <= |r.labels| && id in r.At(n).plans
    ensures r.At(n).plans[id].lastAttempt == 1 <==> exists i :: 0 <= i < n && HandsOff(r, i, id)
    decreases n
  {
    hide *;
    if i :| 0 <= i < n && HandsOff(r, i, id) {
      HandOffCounts(r, i, id);
      PlansEvolveOverRuns(r, i + 1, n, id);
      AttemptsGrow(r.At(i + 1).plans[id], r.At(n).plans[id]);
      PlanAt(r, n, id);
      AtMostOneAttempt(r.At(n).plans[id], id, r.At(n).ctx.epoch, r.At(n).ctx.plannerBoot, r.At(n).nextPlanId);
    } else if r.At(n).plans[id].lastAttempt == 1 {
      var i := HandOffOf(r, n, id);
    }
  }

  lemma AtMostOneAttempt(p: Plan, key: u64, epoch: u64, boot: u64, next: u64)
    requires PlanOk(p, key, epoch, boot, next)
    ensures p.lastAttempt <= 1
  {
  }

  lemma NoPlansAtFirst(r: Run)
    requires r.Legal()
    ensures r.At(0).plans == map[]
  {
  }

  /** The step that gave a plan its attempt. */
  lemma {:induction false} HandOffOf(r: Run, n: nat, id: u64) returns (i: nat)
    requires r.Legal() && n <= |r.labels| && id in r.At(n).plans && r.At(n).plans[id].lastAttempt == 1
    ensures i < n && HandsOff(r, i, id)
    decreases n
  {
    hide *;
    NoPlansAtFirst(r);
    var m := n - 1;
    var s := r.At(m);
    if id in s.plans && s.plans[id].lastAttempt == 1 {
      i := HandOffOf(r, m, id);
    } else {
      i := m;
      StepAt(r, m);
      WhoDidIt(s, r.labels[m], r.sha, r.Added(m), id);
      WasHandedOff(r, m, id);
    }
  }

  lemma WasHandedOff(r: Run, m: nat, id: u64)
    requires m < |r.labels| && id in r.At(m + 1).plans && Explained(r.At(m), r.labels[m], r.At(m + 1), id)
    requires r.At(m + 1).plans[id].lastAttempt != (if id in r.At(m).plans then r.At(m).plans[id].lastAttempt else 0)
    ensures HandsOff(r, m, id)
  {
    hide RawRun.At;
    hide BeginDispatch;
    hide AuthorizePlan;
    hide Admitted;
  }

  /** The last step that authorized an AUTHORIZED plan; since then no step has touched its life. */
  lemma {:induction false} AuthorizationOf(r: Run, n: nat, id: u64) returns (i: nat)
    requires r.Legal() && n <= |r.labels| && id in r.At(n).plans && r.At(n).plans[id].life.Authorized?
    ensures i < n && Authorizes(r, i, id)
    decreases n
  {
    hide *;
    NoPlansAtFirst(r);
    var m := n - 1;
    var s := r.At(m);
    if id in s.plans && s.plans[id].life.Authorized? {
      i := AuthorizationOf(r, m, id);
    } else {
      i := m;
      StepAt(r, m);
      WhoDidIt(s, r.labels[m], r.sha, r.Added(m), id);
      WasAuthorized(r, m, id);
    }
  }

  lemma WasAuthorized(r: Run, m: nat, id: u64)
    requires m < |r.labels| && id in r.At(m + 1).plans && Explained(r.At(m), r.labels[m], r.At(m + 1), id)
    requires r.At(m + 1).plans[id].life.Authorized? && !(id in r.At(m).plans && r.At(m).plans[id].life.Authorized?)
    ensures Authorizes(r, m, id)
  {
    hide RawRun.At;
    hide BeginDispatch;
    hide AuthorizePlan;
    hide Admitted;
  }

  /** How many restarts the first `n` steps have completed. */
  ghost function RestartsDone(r: Run, n: nat): nat
    requires n <= |r.labels|
  {
    if n == 0 then 0
    else RestartsDone(r, n - 1) + (if RestartsAt(r, n - 1) then 1 else 0)
  }

  ghost predicate RestartsAt(r: Run, n: nat)
    requires n < |r.labels|
  {
    IsRestart(r.At(n), r.labels[n])
  }

  lemma RestartStep(r: Run, n: nat)
    requires r.Legal() && n < |r.labels|
    ensures RestartsAt(r, n) ==> CompletesRestart(r.At(n), r.At(n + 1))
    ensures !RestartsAt(r, n) ==> r.At(n + 1).ctx.epoch == r.At(n).ctx.epoch
  {
    StepAt(r, n);
    hide RawRun.At;
    hide Inv;
    hide Step;
    hide Effect;
    hide IsRestart;
    hide CompletesRestart;
    if IsRestart(r.At(n), r.labels[n]) {
      RestartStepEnds(r.At(n), r.labels[n], r.sha, r.Added(n));
    } else {
      OtherStepsKeepEpoch(r.At(n), r.labels[n], r.sha, r.Added(n));
    }
  }

  /** The coordinator epoch counts the restarts. */
  lemma {:induction false} EpochCountsRestarts(r: Run, n: nat)
    requires r.Legal() && n <= |r.labels|
    ensures r.At(n).ctx.epoch == 1 + RestartsDone(r, n)
    decreases n
  {
    hide RawRun.At;
    if n == 0 {
      InitialEpoch(r);
    } else {
      hide RestartsAt;
      EpochCountsRestarts(r, n - 1);
      RestartStep(r, n - 1);
    }
  }

  lemma InitialEpoch(r: Run)
    requires r.Legal()
    ensures r.At(0).ctx.epoch == 1
  {
  }

  /** The fences under which a plan may be authorized or handed off. */
  predicate FencesHold(p: Plan, ctx: Context) {
    Effects.FencesMatch(p, ctx) && p.authority.plannerBoot == ctx.plannerBoot
  }

  lemma LivePlanFences(p: Plan, key: u64, ctx: Context, next: u64)
    requires PlanOk(p, key, ctx.epoch, ctx.plannerBoot, next) && AuthorityCurrent(p, ctx) && !Terminal(p.life)
    ensures FencesHold(p, ctx) && p.authority.coordinatorEpoch == ctx.epoch
  {
    Effects.AuthorityMeans(p, ctx);
    hide Wording.Plain;
  }

  lemma AuthorizesMeans(r: Run, n: nat, id: u64)
    requires r.Legal() && n < |r.labels| && Authorizes(r, n, id)
    ensures id in r.At(n).plans && FencesHold(r.At(n).plans[id], r.At(n).ctx)
    ensures r.At(n).plans[id].life.Planned? || r.At(n).plans[id].life.Authorized?
  {
    AuthorizeIsFenced(r.At(n), id, r.labels[n].now);
    PlanAt(r, n, id);
    var s := r.At(n);
    hide RawRun.At;
    hide AuthorizePlan;
    hide AuthorityCurrent;
    hide FencesHold;
    LivePlanFences(s.plans[id], id, s.ctx, s.nextPlanId);
    hide PlanOk;
  }

  lemma AuthorizeIsFenced(s: State, id: u64, now: i64)
    requires AuthorizePlan(s, id, now).Done?
    ensures id in s.plans && AuthorityCurrent(s.plans[id], s.ctx)
    ensures s.plans[id].life.Planned? || s.plans[id].life.Authorized?
  {
    hide AuthorityCurrent;
  }

  /**
   Every hand-off follows an authorization of the same plan in the same epoch, with no restart between,
   and happens only while every fence of the plan holds: epoch, boot, generations, and a target that is
   alive under the boot that the plan was made for.
   */
  lemma HandOffIsAuthorized(r: Run, n: nat, id: u64) returns (i: nat)
    requires r.Legal() && n < |r.labels| && HandsOff(r, n, id)
    ensures i < n && Authorizes(r, i, id)
    ensures RestartsDone(r, i) == RestartsDone(r, n)
    ensures id in r.At(n).plans && FencesHold(r.At(n).plans[id], r.At(n).ctx)
  {
    hide *;
    HandOffCounts(r, n, id);
    i := AuthorizationOf(r, n, id);
    HandOffFences(r, n, id);
    AuthorizesMeans(r, i, id);
    PlansEvolveOverRuns(r, i, n, id);
    SameEpoch(r.At(i).plans[id], r.At(i).ctx, r.At(n).plans[id], r.At(n).ctx);
    EpochCountsRestarts(r, i);
    EpochCountsRestarts(r, n);
  }

  lemma HandOffFences(r: Run, n: nat, id: u64)
    requires r.Legal() && n < |r.labels| && HandsOff(r, n, id)
    ensures id in r.At(n).plans && FencesHold(r.At(n).plans[id], r.At(n).ctx)
  {
    BeginIsOfAuthorized(r.At(n), id, r.labels[n].now);
    PlanAt(r, n, id);
    var s := r.At(n);
    hide RawRun.At;
    hide BeginDispatch;
    hide AuthorityCurrent;
    hide FencesHold;
    LivePlanFences(s.plans[id], id, s.ctx, s.nextPlanId);
    hide PlanOk;
  }

  lemma SameEpoch(p: Plan, c: Context, q: Plan, d: Context)
    requires FencesHold(p, c) && FencesHold(q, d) && Evolves(p, q)
    ensures c.epoch == d.epoch
  {
  }

  /** A restart ends every plan there is: it is terminal from then on, and can be neither authorized nor dispatched. */
  lemma RestartEndsPlans(r: Run, i: nat, j: nat, id: u64, now: i64)
    requires r.Legal() && i < j <= |r.labels| && RestartsAt(r, i) && id in r.At(i).plans
    ensures id in r.At(j).plans && Terminal(r.At(j).plans[id].life)
    ensures AuthorizePlan(r.At(j), id, now).Thrown? && BeginDispatch(r.At(j), id, now).Thrown?
  {
    hide *;
    RestartStep(r, i);
    RestartTerminates(r.At(i), r.At(i + 1), id);
    TerminalIsForever(r, i + 1, j, id);
    SameLife(r.At(i + 1).plans[id], r.At(j).plans[id]);
    TerminalIsStuck(r.At(j), id, now);
  }

  lemma SameLife(p: Plan, q: Plan)
    requires SameStatus(p, q)
    ensures p.life == q.life
  {
  }

  lemma RestartTerminates(s: State, t: State, id: u64)
    requires CompletesRestart(s, t) && id in s.plans
    ensures id in t.plans && Terminal(t.plans[id].life)
  {
  }

  lemma TerminalIsStuck(s: State, id: u64, now: i64)
    requires id in s.plans && Terminal(s.plans[id].life)
    ensures AuthorizePlan(s, id, now).Thrown? && BeginDispatch(s, id, now).Thrown?
  {
    hide AuthorityCurrent;
  }

  lemma {:induction false} RestartsGrow(r: Run, i: nat, j: nat)
    requires i <= j <= |r.labels|
    ensures RestartsDone(r, i) <= RestartsDone(r, j)
    decreases j
  {
    hide RestartsAt;
    if i < j {
      RestartsGrow(r, i, j - 1);
    }
  }

  /** Evidence observed before a restart never makes a candidate feasible after it. */
  lemma EvidenceExpiresAtRestart(r: Run, i: nat, k: nat, j: nat, c: Candidate, q: Request)
    requires r.Legal() && i <= k < j <= |r.labels| && RestartsAt(r, k)
    requires c.authority.Some? && c.authority.value.coordinatorEpoch == r.At(i).ctx.epoch
    ensures !IsFeasible(c, q, r.At(j).ctx)
  {
    assert RestartsDone(r, k + 1) == RestartsDone(r, k) + 1;
    hide RestartsDone;
    hide RestartsAt;
    hide RawRun.Legal;
    RestartsGrow(r, i, k);
    RestartsGrow(r, k + 1, j);
    EpochCountsRestarts(r, i);
    EpochCountsRestarts(r, j);
    FeasibilityProofs.OldEpochIsNeverFeasible(c, q, r.At(j).ctx);
    hide Feasibility.Evaluate;
  }

  /** A restart through a store keeps, of the requests, exactly those that the reader gets to. */
  lemma RestartKeepsReadableRequests(r: Run, n: nat)
    requires r.Legal() && n < |r.labels| && RestartsAt(r, n) && r.labels[n].disk.Some?
    ensures r.At(n + 1).requests == Restart.ReadableRequests(r.At(n))
  {
    StepAt(r, n);
    hide Inv;
    hide Effect;
    hide Step;
    hide RawRun.Legal;
    hide RestartCoordinator;
    hide Restart.ReadableRequests;
    RestartStepKeepsRequests(r.At(n), r.labels[n], r.sha, r.Added(n));
  }

  /** Once handed off, a plan is never CANCELLED: force or not, it ends some other way. */
  lemma HandedOffIsNeverCancelled(r: Run, i: nat, j: nat, id: u64)
    requires r.Legal() && i < j <= |r.labels| && HandsOff(r, i, id)
    ensures id in r.At(j).plans && !r.At(j).plans[id].life.Cancelled?
  {
    hide *;
    HandOffCounts(r, i, id);
    PlansEvolveOverRuns(r, i + 1, j, id);
    AttemptsGrow(r.At(i + 1).plans[id], r.At(j).plans[id]);
    PlanAt(r, j, id);
    AttemptedIsNotCancelled(r.At(j).plans[id], id, r.At(j).ctx.epoch, r.At(j).ctx.plannerBoot, r.At(j).nextPlanId);
  }

  lemma AttemptedIsNotCancelled(p: Plan, key: u64, epoch: u64, boot: u64, next: u64)
    requires PlanOk(p, key, epoch, boot, next) && p.lastAttempt >= 1
    ensures !p.life.Cancelled?
  {
  }

  // ---- Publication ----------------------------------------------------------------------------

  /** Step `n` reports `outcome` for plan `id`, and the report passes the fences. */
  ghost predicate Reports(r: Run, n: nat, id: u64, outcome: Outcome)
    requires n < |r.labels|
  {
    && r.labels[n].ReportCall? && r.labels[n].report.planId == id && r.labels[n].report.outcome == outcome
    && Admitted(r.At(n), r.labels[n].report)
  }

  /** A published outcome was reported, for this plan, generation and boot, while the plan was live. */
  lemma {:induction false} PublishedWasReported(r: Run, n: nat, id: u64) returns (i: nat)
    requires r.Legal() && n <= |r.labels| && id in r.At(n).plans && r.At(n).plans[id].published
    ensures i < n && Reports(r, i, id, r.At(n).plans[id].outcome)
    decreases n
  {
    hide *;
    NoPlansAtFirst(r);
    var m := n - 1;
    var s := r.At(m);
    if id in s.plans && s.plans[id].published {
      i := PublishedWasReported(r, m, id);
      PlanAt(r, m, id);
      PublishedIsTerminal(s.plans[id], id, s.ctx.epoch, s.ctx.plannerBoot, s.nextPlanId);
      TerminalIsForever(r, m, n, id);
      SameOutcome(s.plans[id], r.At(n).plans[id]);
    } else {
      i := m;
      StepAt(r, m);
      WhoDidIt(s, r.labels[m], r.sha, r.Added(m), id);
      WasReported(r, m, id);
    }
  }

  lemma SameOutcome(p: Plan, q: Plan)
    requires SameStatus(p, q)
    ensures p.outcome == q.outcome
  {
  }

  lemma PublishedIsTerminal(p: Plan, key: u64, epoch: u64, boot: u64, next: u64)
    requires PlanOk(p, key, epoch, boot, next) && p.published
    ensures Terminal(p.life)
  {
  }

  lemma WasReported(r: Run, m: nat, id: u64)
    requires m < |r.labels| && id in r.At(m + 1).plans && Explained(r.At(m), r.labels[m], r.At(m + 1), id)
    requires r.At(m + 1).plans[id].published && !(id in r.At(m).plans && r.At(m).plans[id].published)
    ensures Reports(r, m, id, r.At(m + 1).plans[id].outcome)
  {
    hide RawRun.At;
    hide BeginDispatch;
    hide AuthorizePlan;
    hide Admitted;
  }

  // ---- What a hand-off and a report bring about -----------------------------------------------

  /**
   What leaves the planner in a hand-off: the instruction says what the plan says, field by field, and its target is
   alive under the boot that the instruction names.
   */
  lemma HandOffInstructs(r: Run, n: nat, id: u64)
    requires r.Legal() && n < |r.labels| && HandsOff(r, n, id)
    ensures BeginDispatch(r.At(n), id, r.labels[n].now).Done? && id in r.At(n).plans
    ensures var d := BeginDispatch(r.At(n), id, r.labels[n].now).value.dispatch;
            var p, ctx := r.At(n).plans[id], r.At(n).ctx;
            && Effects.Instructs(d, p)
            && d.planId == id && d.dispatchId == d.attempt == 1
            && d.targetWorker in ctx.aliveWorkers
            && d.targetWorker in ctx.workerBoots && ctx.workerBoots[d.targetWorker] == d.targetBoot
  {
    var s := r.At(n);
    Effects.BeginMeans(s, id, r.labels[n].now);
    HandOffCounts(r, n, id);
    PlanAt(r, n, id);
    PlanIdIs(s.plans[id], id, s.ctx.epoch, s.ctx.plannerBoot, s.nextPlanId);
    hide PlanOk;
    hide RawRun.Legal;
    hide BeginDispatch;
  }

  lemma PlanIdIs(p: Plan, key: u64, epoch: u64, boot: u64, next: u64)
    requires PlanOk(p, key, epoch, boot, next)
    ensures p.planId == key
  {
  }

  /** A live plan that has been handed off is under way. */
  lemma AttemptedIsUnderWay(p: Plan, key: u64, epoch: u64, boot: u64, next: u64)
    requires PlanOk(p, key, epoch, boot, next) && p.lastAttempt >= 1 && !Terminal(p.life)
    ensures p.life.Dispatched? || p.life.Executing?
  {
  }

  /**
   The converse of PublishedWasReported: a report of success or failure, for the right generation and from the right
   boot, on a live plan that has been handed off, is published and stays so, whatever comes after.
   */
  lemma ReportIsPublished(r: Run, h: nat, i: nat, j: nat, id: u64)
    requires r.Legal() && h < i < j <= |r.labels| && HandsOff(r, h, id)
    requires id in r.At(i).plans && !Terminal(r.At(i).plans[id].life)
    requires r.labels[i].ReportCall?
    requires var report := r.labels[i].report;
             && report.planId == id
             && report.planGeneration == r.At(i).plans[id].generation
             && report.reporterBoot == r.At(i).plans[id].targetBoot
             && (report.outcome == Success || report.outcome == Failure)
    ensures id in r.At(j).plans
    ensures var p, outcome := r.At(j).plans[id], r.labels[i].report.outcome;
            && p.published && p.outcome == outcome
            && p.life == (if outcome == Success then Succeeded else Failed)
  {
    var s := r.At(i);
    hide *;
    HandOffCounts(r, h, id);
    PlansEvolveOverRuns(r, h + 1, i, id);
    AttemptsGrow(r.At(h + 1).plans[id], s.plans[id]);
    PlanAt(r, i, id);
    AttemptedIsUnderWay(s.plans[id], id, s.ctx.epoch, s.ctx.plannerBoot, s.nextPlanId);
    ReportStep(r, i);
    Effects.ReportMeans(s, r.labels[i].report, r.labels[i].now);
    ReportEnds(s.plans[id], r.labels[i].report.outcome, r.labels[i].now);
    TerminalIsForever(r, i + 1, j, id);
    SameStatusMeans(r.At(i + 1).plans[id], r.At(j).plans[id]);
  }

  lemma ReportStep(r: Run, n: nat)
    requires r.Legal() && n < |r.labels| && r.labels[n].ReportCall?
    ensures r.At(n + 1) == ReportExecution(r.At(n), r.labels[n].report, r.labels[n].now)
  {
    assert r.Steps(n);
    hide ReportExecution;
  }

  lemma ReportEnds(p: Plan, outcome: Outcome, now: i64)
    requires outcome == Success || outcome == Failure
    ensures var q := Effects.ReportedAs(p, outcome, now);
            && Terminal(q.life) && q.published && q.outcome == outcome
            && q.life == (if outcome == Success then Succeeded else Failed)
  {
  }

  lemma SameStatusMeans(p: Plan, q: Plan)
    requires SameStatus(p, q)
    ensures p.life == q.life && p.outcome == q.outcome && p.published == q.published
  {
  }
}
