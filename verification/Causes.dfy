/** Which step changes what: only one kind of step authorizes, dispatches, creates, succeeds or restarts. */
module Causes {
  import opened Integers
  import opened Domain
  import opened Evidence
  import opened Selection
  import opened Planning
  import opened Lifecycle
  import opened Runs
  import Economics
  import Persistence
  import Restart
  import SnapshotProofs
  import Wording

  /** Neither authorized nor handed out by the step, nor newly successful or published. */
  predicate Quiet(p: Plan, q: Plan) {
    && p.lastAttempt == q.lastAttempt
    && (q.life.Authorized? ==> p.life.Authorized?)
    && (q.published ==> p.published)
  }

  lemma QuietReceipt(p: Plan, status: DispatchStatus, now: i64)
    ensures Quiet(p, AfterReceipt(p, status, now))
  {
  }

  lemma QuietSupersede(p: Plan, requestId: u64, keep: u64, now: i64)
    ensures Quiet(p, SupersededBy(p, requestId, keep, now))
  {
  }

  lemma QuietRestart(p: Plan, q: Plan, now: i64)
    requires RestartsTo(p, q, now)
    ensures Quiet(p, q)
  {
  }

  // ---- The plans under the steps that may touch more than one ---------------------------------

  /** A plan that has just been made: it carries the next id, the current fences and no attempt. */
  predicate Newborn(s: State, k: u64, p: Plan) {
    && k == s.nextPlanId && p.planId == k
    && p.life.Planned? && p.lastAttempt == 0 && !p.published
    && p.authority.coordinatorEpoch == s.ctx.epoch && p.authority.plannerBoot == s.ctx.plannerBoot
  }

  /** At most one plan is added, under the next id and freshly PLANNED; older ones are at most superseded. */
  predicate PlannedFrom(s: State, t: State) {
    && t.dispatches == s.dispatches && t.ctx == s.ctx
    && (forall k :: k in s.plans ==> k in t.plans && Quiet(s.plans[k], t.plans[k]))
    && (forall k :: k in t.plans && k !in s.plans ==> Newborn(s, k, t.plans[k]))
  }

  lemma InstalledQuietly(s: State, q: Request, p: Plan, now: i64, n: nat)
    requires Inv(s, n) && Newborn(s, p.planId, p) && Fresh(s, p)
    ensures PlannedFrom(s, Install(s, q, p, now))
  {
    FreshIsNew(s, p, n);
    InstalledKeys(s, q, p, now);
    InstalledRest(s, q, p, now);
    hide Inv;
    hide Install;
    hide Quiet;
    hide Newborn;
    hide Fresh;
    hide SupersededBy;
    forall k | k in s.plans ensures Quiet(s.plans[k], SupersededBy(s.plans[k], q.requestId, p.planId, now)) {
      QuietSupersede(s.plans[k], q.requestId, p.planId, now);
    }
  }

  lemma NothingPlanned(s: State)
    ensures PlannedFrom(s, s)
  {
  }

  lemma RememberedIsPlanned(s: State, t: State, requests: map<u64, Request>, history: seq<text>)
    requires PlannedFrom(s, t)
    ensures PlannedFrom(s, t.(requests := requests, history := history))
  {
    hide Quiet;
    hide Newborn;
  }

  lemma BuiltIsNewborn(s: State, q: Request, c: Candidate, now: i64, sha: Hash, n: nat)
    requires Inv(s, n) && n < TWO_32
    ensures var p := BuildPlan(s, q, c, now, sha); Newborn(s, p.planId, p) && Fresh(s, p)
  {
    BuiltPlanOk(s, q, c, now, sha, n);
    hide PlanOk;
    hide DecisionDigest;
    hide Wording.Payload;
    hide Economics.EvaluateDeadline;
  }

  lemma SelectedIsPlanned(s: State, q: Request, c: Candidate, outcome: PlanOutcome, now: i64, sha: Hash, n: nat)
    requires Inv(s, n) && n < TWO_32
    ensures var p := BuildPlan(s, q, c, now, sha);
            var s' := Install(s, q, p, now);
            var s'' := if outcome.PlanFound? then s'.(requests := s'.requests[q.requestId := q]) else s';
            PlannedFrom(s, Remember(s'', Wording.HistoryEntryWithPlan(q, outcome, p)))
  {
    var p := BuildPlan(s, q, c, now, sha);
    var entry := Wording.HistoryEntryWithPlan(q, outcome, p);
    hide *;
    BuiltIsNewborn(s, q, c, now, sha, n);
    InstalledQuietly(s, q, p, now, n);
    RememberedIs(s, q, p, outcome.PlanFound?, entry, now);
    var requests := if outcome.PlanFound? then s.requests[q.requestId := q] else s.requests;
    RememberedIsPlanned(s, Install(s, q, p, now), requests, s.history + [entry]);
  }

  /** `plan` touches neither the world nor the dispatch table, and the plans as described. */
  lemma PlanCallPlans(s: State, q: Request, cs: seq<Candidate>, now: i64, sha: Hash, n: nat)
    requires Inv(s, n) && n < TWO_32
    ensures PlannedFrom(s, AfterPlan(s, q, cs, now, sha))
  {
    NothingPlanned(s);
    var d := Decide(cs, q, s.ctx, now);
    RememberedIsPlanned(s, s, s.requests, s.history + [Wording.HistoryEntry(q, d.outcome)]);
    if d.Selects() {
      SelectsOnlyFromSome(cs, q, s.ctx, now);
      SelectedIsPlanned(s, q, cs[d.ranking[0]], d.outcome, now, sha, n);
    }
    hide Inv;
    hide PlannedFrom;
    hide Decide;
    hide Install;
    hide BuildPlan;
    hide Wording.HistoryEntry;
    hide Wording.HistoryEntryWithPlan;
  }

  // ---- Any step -------------------------------------------------------------------------------

  /** The plan that a step may authorize, hand out or publish. */
  function Addressee(l: Label): Option<u64> {
    match l
    case AuthorizeCall(id, _) => Some(id)
    case BeginCall(id, _) => Some(id)
    case ReportCall(r, _) => Some(r.planId)
    case _ => None
  }

  /** What a step leaves alone: it says where every change of a run comes from. */
  predicate Effect(s: State, l: Label, t: State) {
    && (forall k :: k in s.plans && Addressee(l) != Some(k) ==> k in t.plans && Quiet(s.plans[k], t.plans[k]))
    && (forall k :: k in t.plans && k !in s.plans ==> l.PlanCall? && Newborn(s, k, t.plans[k]))
    && (!l.BeginCall? && !l.ResolveCall? ==> t.dispatches == s.dispatches)
    && (!l.RestartCall? ==> t.ctx.epoch == s.ctx.epoch)
  }

  lemma QuietReflexive(p: Plan)
    ensures Quiet(p, p)
  {
  }

  lemma NothingHappens(s: State, l: Label)
    ensures Effect(s, l, s)
  {
  }

  /** One plan is replaced, quietly unless the step is addressed to it. */
  lemma SetPlanEffect(s: State, l: Label, id: u64, q: Plan)
    requires id in s.plans && (Addressee(l) == Some(id) || Quiet(s.plans[id], q))
    ensures Effect(s, l, SetPlan(s, id, q))
  {
    hide Quiet;
    forall k | k in s.plans ensures Quiet(s.plans[k], s.plans[k]) { QuietReflexive(s.plans[k]); }
  }

  /** Steps that leave the plans alone. */
  lemma OtherFieldsEffect(s: State, l: Label, t: State)
    requires t == s.(ctx := t.ctx, dispatches := t.dispatches) && t.ctx.epoch == s.ctx.epoch
    requires l.ResolveCall? || t.dispatches == s.dispatches
    ensures Effect(s, l, t)
  {
    hide Quiet;
    forall k | k in s.plans ensures Quiet(s.plans[k], s.plans[k]) { QuietReflexive(s.plans[k]); }
  }

  lemma AuthorizeEffect(s: State, id: u64, now: i64)
    ensures Effect(s, AuthorizeCall(id, now), AfterAuthorize(s, id, now))
  {
    var l := AuthorizeCall(id, now);
    NothingHappens(s, l);
    if AuthorizePlan(s, id, now).Done? {
      SetPlanEffect(s, l, id, s.plans[id].(life := Authorized, updatedAt := now));
    }
    hide Effect;
    hide AuthorityCurrent;
    hide SetPlan;
  }

  lemma BeginEffect(s: State, id: u64, now: i64)
    ensures Effect(s, BeginCall(id, now), AfterBegin(s, id, now))
  {
    var l := BeginCall(id, now);
    NothingHappens(s, l);
    if BeginDispatch(s, id, now).Done? {
      var p := s.plans[id];
      SetPlanEffect(s, l, id, p.(updatedAt := now, lastAttempt := Next(p.lastAttempt), life := Dispatched));
      hide AuthorityCurrent;
      hide Quiet;
      hide Newborn;
    }
  }

  lemma FinishEffect(s: State, id: u64, status: DispatchStatus, now: i64)
    ensures Effect(s, FinishCall(id, status, now), AfterFinish(s, id, status, now))
  {
    var l := FinishCall(id, status, now);
    NothingHappens(s, l);
    if id in s.plans {
      QuietReceipt(s.plans[id], status, now);
      SetPlanEffect(s, l, id, AfterReceipt(s.plans[id], status, now));
    }
    hide Effect;
    hide AfterReceipt;
    hide SetPlan;
  }

  lemma ReportEffect(s: State, r: Report, now: i64)
    ensures Effect(s, ReportCall(r, now), ReportExecution(s, r, now))
  {
    var l := ReportCall(r, now);
    NothingHappens(s, l);
    if Admitted(s, r) {
      SetPlanEffect(s, l, r.planId, Reported(s.plans[r.planId], r.outcome, now));
    }
    hide Effect;
    hide Reported;
    hide SetPlan;
  }

  lemma CancelEffect(s: State, id: u64, force: bool, now: i64)
    ensures Effect(s, CancelCall(id, force, now), AfterCancel(s, id, force, now))
  {
    var l := CancelCall(id, force, now);
    NothingHappens(s, l);
    if id in s.plans {
      SetPlanEffect(s, l, id, s.plans[id].(life := Cancelled, outcome := Withdrawn, updatedAt := now));
    }
    hide Effect;
    hide SetPlan;
  }

  lemma InvalidateEffect(s: State, id: u64, now: i64)
    ensures Effect(s, InvalidateCall(id, now), InvalidatePlan(s, id, now))
  {
    var l := InvalidateCall(id, now);
    NothingHappens(s, l);
    if id in s.plans {
      SetPlanEffect(s, l, id, s.plans[id].(life := Invalidated, updatedAt := now));
    }
    hide Effect;
    hide SetPlan;
  }

  lemma PlanEffect(s: State, q: Request, cs: seq<Candidate>, now: i64, sha: Hash, n: nat)
    requires Inv(s, n) && n < TWO_32
    ensures Effect(s, PlanCall(q, cs, now), AfterPlan(s, q, cs, now, sha))
  {
    PlanCallPlans(s, q, cs, now, sha, n);
    hide AfterPlan;
    hide Inv;
    hide Quiet;
    hide Newborn;
  }

  lemma RestartedEffect(s: State, l: Label, t: State, now: i64, n: nat)
    requires l.RestartCall? && Restarts(s, t, now, n) && t.dispatches == s.dispatches
    ensures Effect(s, l, t)
  {
    hide Inv;
    hide PlansMove;
    hide Quiet;
    hide RestartsTo;
    forall k | k in s.plans ensures k in t.plans && Quiet(s.plans[k], t.plans[k]) {
      QuietRestart(s.plans[k], t.plans[k], now);
    }
  }

  lemma RestartEffect(s: State, disk: Option<Persistence.Disk>, now: i64, n: nat)
    requires Inv(s, n) && n < TWO_32
    ensures Effect(s, RestartCall(disk, now), AfterRestart(s, disk, now))
  {
    hide RestartCoordinator;
    hide Inv;
    hide Restarts;
    hide Effect;
    NothingHappens(s, RestartCall(disk, now));
    var r := RestartCoordinator(s, disk, now);
    if r.Done? {
      RestartKeeps(s, disk, now, n);
      RestartDispatches(s, disk, now, n);
      RestartedEffect(s, RestartCall(disk, now), r.value.state, now, n);
    }
  }

  lemma RestartDispatches(s: State, disk: Option<Persistence.Disk>, now: i64, n: nat)
    requires Inv(s, n) && n < TWO_32 && RestartCoordinator(s, disk, now).Done?
    ensures RestartCoordinator(s, disk, now).value.state.dispatches == s.dispatches
  {
    InvPersists(s, n);
    hide Inv;
    Restart.RestartKeepsPlans(s, disk, now);
    hide RestartCoordinator;
  }

  lemma StepEffect(s: State, l: Label, sha: Hash, n: nat)
    requires Inv(s, n) && n < TWO_32
    ensures Effect(s, l, Step(s, l, sha))
  {
    hide Inv;
    hide Effect;
    hide AfterPlan;
    hide AfterAuthorize;
    hide AfterBegin;
    hide AfterFinish;
    hide AfterCancel;
    hide AfterRestart;
    hide ReportExecution;
    hide InvalidatePlan;
    match l
    case PlanCall(q, cs, now) => PlanEffect(s, q, cs, now, sha, n);
    case AuthorizeCall(id, now) => AuthorizeEffect(s, id, now);
    case RevalidateCall(_) => NothingHappens(s, l);
    case BeginCall(id, now) => BeginEffect(s, id, now);
    case FinishCall(id, status, now) => FinishEffect(s, id, status, now);
    case ReportCall(r, now) => ReportEffect(s, r, now);
    case ResolveCall(d, outcome) => OtherFieldsEffect(s, l, AfterResolve(s, d, outcome));
    case CancelCall(id, force, now) => CancelEffect(s, id, force, now);
    case InvalidateCall(id, now) => InvalidateEffect(s, id, now);
    case WorldCall(c) => OtherFieldsEffect(s, l, AfterChange(s, c));
    case RestartCall(disk, now) => RestartEffect(s, disk, now, n);
  }

  // ---- The three steps that are addressed to a plan -------------------------------------------

  lemma AuthorizeChanges(s: State, id: u64, now: i64)
    requires id in s.plans
    ensures var t := AfterAuthorize(s, id, now);
            && id in t.plans
            && t.plans[id].lastAttempt == s.plans[id].lastAttempt && t.plans[id].published == s.plans[id].published
            && (!AuthorizePlan(s, id, now).Done? ==> t == s)
  {
    hide AuthorityCurrent;
  }

  lemma BeginChangesPlan(s: State, id: u64, now: i64)
    requires id in s.plans
    ensures var t := AfterBegin(s, id, now);
            && id in t.plans
            && (t.plans[id].life.Authorized? ==> s.plans[id].life.Authorized?) && t.plans[id].published == s.plans[id].published
            && (!BeginDispatch(s, id, now).Done? ==> t == s)
  {
    hide AuthorityCurrent;
  }

  lemma ReportChanges(s: State, r: Report, now: i64)
    requires r.planId in s.plans
    ensures var t := ReportExecution(s, r, now); var p, q := s.plans[r.planId], t.plans[r.planId];
            && r.planId in t.plans
            && (q.life.Authorized? ==> p.life.Authorized?) && q.lastAttempt == p.lastAttempt
            && (q.published && !p.published ==> Admitted(s, r) && q.outcome == r.outcome)
  {
  }

  /** If plan `id` becomes AUTHORIZED, gets an attempt, or has its outcome published, this step was the call for it. */
  predicate Explained(s: State, l: Label, t: State, id: u64)
    requires id in t.plans
  {
    var known := id in s.plans;
    && (t.plans[id].life.Authorized? && !(known && s.plans[id].life.Authorized?) ==>
          known && l.AuthorizeCall? && l.id == id && AuthorizePlan(s, id, l.now).Done?)
    && (t.plans[id].lastAttempt != (if known then s.plans[id].lastAttempt else 0) ==>
          known && l.BeginCall? && l.id == id && BeginDispatch(s, id, l.now).Done?)
    && (t.plans[id].published && !(known && s.plans[id].published) ==>
          && known && l.ReportCall? && l.report.planId == id && Admitted(s, l.report)
          && t.plans[id].outcome == l.report.outcome)
  }

  lemma AddressedStep(s: State, l: Label, sha: Hash, id: u64)
    requires id in s.plans && Addressee(l) == Some(id)
    ensures id in Step(s, l, sha).plans && Explained(s, l, Step(s, l, sha), id)
  {
    hide AfterAuthorize;
    hide AfterBegin;
    hide AuthorizePlan;
    hide BeginDispatch;
    hide ReportExecution;
    hide Admitted;
    match l
    case AuthorizeCall(_, now) => AuthorizeChanges(s, id, now);
    case BeginCall(_, now) => BeginChangesPlan(s, id, now);
    case ReportCall(r, now) => ReportChanges(s, r, now);
  }

  lemma UnaddressedStep(s: State, l: Label, t: State, id: u64)
    requires id in t.plans && Effect(s, l, t) && !(id in s.plans && Addressee(l) == Some(id))
    ensures Explained(s, l, t, id)
  {
    hide AuthorizePlan;
    hide BeginDispatch;
    hide Admitted;
  }

  lemma WhoDidIt(s: State, l: Label, sha: Hash, n: nat, id: u64)
    requires Inv(s, n) && n < TWO_32 && id in Step(s, l, sha).plans
    ensures Explained(s, l, Step(s, l, sha), id)
  {
    hide *;
    StepEffect(s, l, sha, n);
    if id in s.plans && Addressee(l) == Some(id) {
      AddressedStep(s, l, sha, id);
    } else {
      UnaddressedStep(s, l, Step(s, l, sha), id);
    }
  }

  // ---- Restarts -------------------------------------------------------------------------------

  predicate CompletesRestart(s: State, t: State) {
    && t.ctx.epoch == s.ctx.epoch + 1
    && t.plans.Keys == s.plans.Keys
    && (forall k :: k in s.plans ==> Terminal(t.plans[k].life))
  }

  lemma RestartsEnd(s: State, t: State, now: i64, n: nat)
    requires Restarts(s, t, now, n)
    ensures CompletesRestart(s, t)
  {
    hide Inv;
    hide PlansMove;
    forall k | k in s.plans ensures Terminal(t.plans[k].life) {
      assert RestartsTo(s.plans[k], t.plans[k], now);
    }
  }

  /** Whether a step is a restart that does not throw. */
  ghost predicate IsRestart(s: State, l: Label) { l.RestartCall? && RestartCoordinator(s, l.disk, l.now).Done? }

  lemma RestartStepEnds(s: State, l: Label, sha: Hash, n: nat)
    requires Inv(s, n) && n < TWO_32 && IsRestart(s, l)
    ensures CompletesRestart(s, Step(s, l, sha))
  {
    hide Inv;
    hide Restarts;
    hide CompletesRestart;
    hide RestartCoordinator;
    RestartKeeps(s, l.disk, l.now, n);
    RestartsEnd(s, AfterRestart(s, l.disk, l.now), l.now, n);
  }

  lemma OtherStepsKeepEpoch(s: State, l: Label, sha: Hash, n: nat)
    requires Inv(s, n) && n < TWO_32 && !IsRestart(s, l)
    ensures Step(s, l, sha).ctx.epoch == s.ctx.epoch
  {
    hide Inv;
    hide RestartCoordinator;
    if l.RestartCall? {
      assert Step(s, l, sha) == s;
    } else {
      hide AfterPlan;
      hide AfterAuthorize;
      hide AfterBegin;
      hide Quiet;
      hide Newborn;
      StepEffect(s, l, sha, n);
    }
  }

  lemma RestartedRequests(s: State, disk: Option<Persistence.Disk>, now: i64, t: State)
    requires Restart.RestartedState(s, disk, now, t) && disk.Some?
    ensures t.requests == Restart.ReadableRequests(s)
  {
    hide Restart.ReadableRequests;
    hide Restart.RestartedPlans;
    hide Restart.PlansAtRestart;
  }

  lemma RestartStepKeepsRequests(s: State, l: Label, sha: Hash, n: nat)
    requires Inv(s, n) && n < TWO_32 && IsRestart(s, l) && l.disk.Some?
    ensures Step(s, l, sha).requests == Restart.ReadableRequests(s)
  {
    hide RestartCoordinator;
    hide Inv;
    hide Restart.ReadableRequests;
    hide Restart.RestartedState;
    InvPersists(s, n);
    Restart.RestartKeepsPlans(s, l.disk, l.now);
    hide SnapshotProofs.Countable;
    hide SnapshotProofs.WellKeyed;
    hide Restart.PlansPersist;
    RestartedRequests(s, l.disk, l.now, AfterRestart(s, l.disk, l.now));
  }
}
