/** Concrete inputs on which the planner does not do what one would hope for. */
module Scenario {
  import opened Integers
  import opened Domain
  import opened Evidence
  import opened Selection
  import opened Planning
  import opened Lifecycle
  import opened Runs
  import opened RunTheorems
  import Codec
  import DispatchTable
  import EndToEnd
  import FeasibilityProofs
  import Persistence
  import Restart
  import SelectionProofs
  import Snapshot
  import SnapshotProofs
  import Wording

  const WORKER: u64 := 7
  const BOOT: u64 := 3

  /** A fresh planner's world once the worker has registered. */
  const WORLD: Context := Context(1, 1, 1, 1, 1, 1, 1, map[WORKER := BOOT], {WORKER}, map[], map[], {}, {})

  function RequestOf(id: u64): Request {
    Request(id, 1, 1, 1, 1, 1, [], None, None, None, [], [], 1, 1, 1, 0, [], [], [])
  }

  /** A restart on the registered worker, with the evidence that feasibility asks for. */
  const CANDIDATE: Candidate :=
    Candidate(1, 1, RESTART, WORKER, BOOT, 1, 1, 0, 1, 1, 0,
              Some(StateEvidence(Current, 1, 1, Valid, true)),
              None,
              Some(AvailabilityEvidence(Current, WORKER, BOOT, true, Ready)),
              Some(ResourceEvidence(Current, 1, [], None, None, Available)),
              None, false, None, None, None,
              Some(AuthorityEvidence(1, 1, 0)))

  lemma CandidateIsEligible(id: u64)
    ensures Eligible(CANDIDATE, RequestOf(id), WORLD, 0)
  {
    FeasibilityProofs.FeasibleMeansShown(CANDIDATE, RequestOf(id), WORLD);
    assert FeasibilityProofs.Shown(CANDIDATE, RequestOf(id), WORLD);
    hide IsFeasible;
  }

  /** The only candidate, if it is eligible, is selected. */
  lemma OnlyOneIsSelected(c: Candidate, q: Request, ctx: Context, now: i64)
    requires Eligible(c, q, ctx, now)
    ensures var d := Decide([c], q, ctx, now);
            d.Selects() && d.outcome.PlanFound? && Selected([c], q, ctx, now) == c
  {
    assert [c][0] == c && c in [c];
    SelectionProofs.OutcomeMeans([c], q, ctx, now);
    hide Eligible;
    hide IsFeasible;
    hide MeetsBounds;
    hide Decide;
  }

  lemma CandidateIsSelected(id: u64)
    ensures var d := Decide([CANDIDATE], RequestOf(id), WORLD, 0);
            d.Selects() && d.outcome.PlanFound? && Selected([CANDIDATE], RequestOf(id), WORLD, 0) == CANDIDATE
  {
    hide *;
    CandidateIsEligible(id);
    OnlyOneIsSelected(CANDIDATE, RequestOf(id), WORLD, 0);
  }

  /** A stored plan that nobody has touched since it was made. */
  predicate Untouched(s: State, id: u64) {
    id in s.plans && s.plans[id].planId == id && s.plans[id].lastAttempt == 0 && s.plans[id].outcome.Unknown? && !s.plans[id].published
  }

  lemma Plans(s: State, q: u64, sha: Hash)
    requires s.ctx == WORLD
    ensures var t := AfterPlan(s, RequestOf(q), [CANDIDATE], 0, sha);
            && Untouched(t, s.nextPlanId)
            && AuthorizePlan(t, s.nextPlanId, 0).Done?
            && t.ctx == WORLD && t.nextPlanId == Next(s.nextPlanId)
  {
    assert EndToEnd.TargetIsLive(CANDIDATE, WORLD) && RequestOf(q).workloadGeneration == WORLD.workloadGeneration;
    hide MakePlan;
    hide Decide;
    hide Selected;
    hide BuildPlan;
    hide AuthorizePlan;
    hide AuthorityCurrent;
    hide EndToEnd.TargetIsLive;
    CandidateIsSelected(q);
    EndToEnd.MadePlanIsStored(s, RequestOf(q), [CANDIDATE], 0, sha);
    EndToEnd.BuiltPlanIsCurrent(s, RequestOf(q), CANDIDATE, 0, sha);
    EndToEnd.NewPlanAuthorizes(s, RequestOf(q), [CANDIDATE], 0, sha, 0);
    NextIdAfterPlan(s, q, sha);
  }

  lemma AuthorizedRest(s: State, id: u64)
    ensures AfterAuthorize(s, id, 0).ctx == s.ctx && AfterAuthorize(s, id, 0).nextPlanId == s.nextPlanId
  {
    hide AuthorityCurrent;
  }

  lemma BegunRest(s: State, id: u64)
    ensures AfterBegin(s, id, 0).ctx == s.ctx && AfterBegin(s, id, 0).nextPlanId == s.nextPlanId
  {
    hide AuthorityCurrent;
  }

  lemma Begins(t: State, id: u64)
    requires Untouched(t, id) && AuthorizePlan(t, id, 0).Done?
    ensures BeginDispatch(AfterAuthorize(t, id, 0), id, 0).Done?
  {
    hide AuthorizePlan;
    hide BeginDispatch;
    EndToEnd.AuthorizedIsReady(t, id, 0);
    EndToEnd.BegunIs(AfterAuthorize(t, id, 0), id, 0);
  }

  /** In this world a request can be planned, authorized and dispatched at once. */
  lemma Recovers(s: State, q: u64, sha: Hash)
    requires s.ctx == WORLD
    ensures var id := s.nextPlanId;
            var t := AfterPlan(s, RequestOf(q), [CANDIDATE], 0, sha);
            var u := AfterAuthorize(t, id, 0);
            && BeginDispatch(u, id, 0).Done?
            && AfterBegin(u, id, 0).ctx == WORLD && AfterBegin(u, id, 0).nextPlanId == Next(s.nextPlanId)
  {
    hide *;
    var id := s.nextPlanId;
    var t := AfterPlan(s, RequestOf(q), [CANDIDATE], 0, sha);
    Plans(s, q, sha);
    Begins(t, id);
    AuthorizedRest(t, id);
    BegunRest(AfterAuthorize(t, id, 0), id);
  }

  lemma NextIdAfterPlan(s: State, q: u64, sha: Hash)
    requires s.ctx == WORLD
    ensures AfterPlan(s, RequestOf(q), [CANDIDATE], 0, sha).nextPlanId == Next(s.nextPlanId)
  {
    CandidateIsSelected(q);
    InstalledRest(s, RequestOf(q), BuildPlan(s, RequestOf(q), CANDIDATE, 0, sha), 0);
    hide Decide;
    hide Install;
    hide BuildPlan;
    hide Wording.HistoryEntryWithPlan;
  }

  const LABELS: seq<Label> := [
    WorldCall(Register(WORKER, BOOT)),
    PlanCall(RequestOf(1), [CANDIDATE], 0), AuthorizeCall(1, 0), BeginCall(1, 0),
    PlanCall(RequestOf(2), [CANDIDATE], 0), AuthorizeCall(2, 0), BeginCall(2, 0)]

  /** A recovery that takes three steps of a run in a row. */
  lemma RecoversInRun(r: Run, n: nat, q: u64, id: u64)
    requires n + 3 <= |r.labels| && r.Steps(n) && r.Steps(n + 1) && r.Steps(n + 2)
    requires r.At(n).ctx == WORLD && r.At(n).nextPlanId == id
    requires r.labels[n] == PlanCall(RequestOf(q), [CANDIDATE], 0)
    requires r.labels[n + 1] == AuthorizeCall(id, 0) && r.labels[n + 2] == BeginCall(id, 0)
    ensures HandsOff(r, n + 2, id)
    ensures r.At(n + 3).ctx == WORLD && r.At(n + 3).nextPlanId == Next(id)
  {
    hide AfterPlan;
    hide AfterAuthorize;
    hide AfterBegin;
    hide BeginDispatch;
    Recovers(r.At(n), q, r.sha);
  }

  lemma WorkerRegisters(r: Run)
    requires |r.labels| >= 1 && r.labels[0] == WorldCall(Register(WORKER, BOOT))
    requires r.states[0] == INITIAL && r.Steps(0)
    ensures r.At(1).ctx == WORLD && r.At(1).nextPlanId == 1
  {
    assert r.At(1) == AfterChange(INITIAL, Register(WORKER, BOOT));
  }

  /**
   Dispatch ids do not tell plans apart: in this run plans 1 and 2 are both dispatched, both under the
   id 1, and when the executor of plan 1 completes, the completion is reported for plan 2.
   */
  lemma CompletionGoesToTheWrongPlan(sha: Hash, outcome: Outcome) returns (r: Run)
    ensures r.Legal() && |r.labels| == 7
    ensures HandsOff(r, 3, 1) && HandsOff(r, 6, 2)
    ensures DispatchTable.Attributed(r.At(7), 1, outcome, 2)
  {
    r := EveryStepSequenceRuns(sha, LABELS);
    AddedAtMost(r, 7);
    assert r.Legal();
    assert r.Steps(0) && r.Steps(1) && r.Steps(2) && r.Steps(3) && r.Steps(4) && r.Steps(5) && r.Steps(6);
    hide RawRun.Legal;
    hide RawRun.Steps;
    hide HandsOff;
    hide DispatchTable.Attributed;
    hide DispatchTable.Undisturbed;
    hide CANDIDATE;
    hide RequestOf;
    hide WORLD;
    WorkerRegisters(r);
    RecoversInRun(r, 1, 1, 1);
    RecoversInRun(r, 4, 2, 2);
    DispatchTable.NothingInBetween(r, 7);
    DispatchTable.LateCompletionIsMisattributed(r, 3, 6, 7, 1, 2, 1, outcome);
  }

  // ---- A plan that is found but cannot be authorized ------------------------------------------

  /** The same evidence, about the registered worker, offered for another target. */
  const STRAY: Candidate := CANDIDATE.(targetWorker := 8)

  lemma StrayIsSelected(id: u64)
    ensures var d := Decide([STRAY], RequestOf(id), WORLD, 0);
            d.Selects() && d.outcome.PlanFound? && Selected([STRAY], RequestOf(id), WORLD, 0) == STRAY
  {
    hide *;
    StrayIsEligible(id);
    OnlyOneIsSelected(STRAY, RequestOf(id), WORLD, 0);
  }

  lemma StrayIsEligible(id: u64)
    ensures Eligible(STRAY, RequestOf(id), WORLD, 0)
  {
    FeasibilityProofs.FeasibleMeansShown(STRAY, RequestOf(id), WORLD);
    assert FeasibilityProofs.Shown(STRAY, RequestOf(id), WORLD);
    hide IsFeasible;
  }

  /**
   Feasibility is about the worker that the evidence names, authority about the target: here the outcome is
   PLAN_FOUND, and the plan is refused as stale the moment it is made.
   */
  lemma FoundPlanIsRefused(s: State, id: u64, sha: Hash, later: i64)
    requires s.ctx == WORLD
    ensures var m := MakePlan(s, RequestOf(id), [STRAY], 0, sha);
            && m.decision.outcome.PlanFound? && m.plan.Some?
            && AuthorizePlan(m.state, m.plan.value.planId, later) == Thrown(StaleAuthority)
  {
    StrayIsSelected(id);
    EndToEnd.MadePlanIsStored(s, RequestOf(id), [STRAY], 0, sha);
    EndToEnd.BuiltPlanIsCurrent(s, RequestOf(id), STRAY, 0, sha);
    assert !EndToEnd.TargetIsLive(STRAY, WORLD);
    DecisionIs(s, id, sha);
    hide MakePlan;
    hide Decide;
    hide Selected;
    hide BuildPlan;
    hide AuthorityCurrent;
    hide EndToEnd.TargetIsLive;
  }

  lemma DecisionIs(s: State, id: u64, sha: Hash)
    ensures MakePlan(s, RequestOf(id), [STRAY], 0, sha).decision == Decide([STRAY], RequestOf(id), s.ctx, 0)
  {
    hide Decide;
    hide Install;
    hide BuildPlan;
  }

  // ---- A request that a restart forgets -------------------------------------------------------

  /** A reason one character longer than the reader accepts. */
  const LONG_REASON: text := seq(4097, i => 'a' as int)

  const WORDY: State := INITIAL.(requests := map[1 := RequestOf(1).(reason := LONG_REASON), 2 := RequestOf(2)])

  lemma LongReasonIsRejected()
    ensures !Codec.ShortString(LONG_REASON)
  {
    assert 0 !in LONG_REASON;
  }

  lemma WordyCanBeSaved()
    ensures SnapshotProofs.Countable(WORDY) && SnapshotProofs.WellKeyed(WORDY) && Restart.PlansPersist(WORDY)
    ensures WORDY.requests.Keys == {1, 2}
  {
    hide Snapshot.ShortRequest;
    hide LONG_REASON;
  }

  lemma NothingIsReadable()
    ensures Restart.ReadableRequests(WORDY) == map[]
  {
    LongReasonIsRejected();
    hide LONG_REASON;
    hide Codec.ShortString;
    hide Codec.AllShort;
    assert !Snapshot.ShortRequest(WORDY.requests[1]);
    forall k | k in WORDY.requests ensures !Restart.Readable(WORDY, k) {
      assert 1 in WORDY.requests && 1 <= k;
    }
  }

  /** The request with the long reason is lost in a restart, and so is the harmless one after it. */
  lemma RestartForgetsRequests(now: i64)
    ensures WORDY.requests.Keys == {1, 2}
    ensures var r := RestartCoordinator(WORDY, Some(Persistence.InMemory(map[])), now);
            r.Done? && r.value.state.requests == map[]
  {
    hide *;
    var d := Persistence.InMemory(map[]);
    WordyCanBeSaved();
    NothingIsReadable();
    Restart.ReloadReadsTheSave(WORDY, NewEpoch(WORDY), d);
    DoneWhenSaved(WORDY, d, now);
    Restart.RestartKeepsPlans(WORDY, Some(d), now);
    ForgottenRequests(WORDY, d, now, RestartCoordinator(WORDY, Some(d), now).value.state);
  }

  lemma DoneWhenSaved(s: State, d: Persistence.Disk, now: i64)
    ensures RestartCoordinator(s, Some(d), now).Done? <==> SaveState(s, d).Saved?
  {
    hide SaveState;
    hide Reload;
    hide Recover;
    hide NewEpoch;
  }

  lemma ForgottenRequests(s: State, d: Persistence.Disk, now: i64, r: State)
    requires Restart.RestartedState(s, Some(d), now, r) && Restart.ReadableRequests(s) == map[]
    ensures r.requests == map[]
  {
    hide Restart.ReadableRequests;
    hide Restart.RestartedPlans;
    hide Restart.PlansAtRestart;
  }
}
