/**
 What the dispatch table remembers in a run. Dispatch ids are attempt numbers and every plan has at most
 one attempt, so all dispatches share the id 1, and the table is a single slot.
 */
module DispatchTable {
  import opened Integers
  import opened Domain
  import opened Planning
  import opened Lifecycle
  import opened Runs
  import opened Causes
  import opened RunTheorems

  /** The plan of the last hand-off whose completion has not been resolved yet, told from the steps alone. */
  ghost function Pending(r: Run, n: nat): Option<u64>
    requires n <= |r.labels|
  {
    if n == 0 then None
    else if Begins(r, n - 1) then Some(r.labels[n - 1].id)
    else if r.labels[n - 1].ResolveCall? && r.labels[n - 1].dispatchId == 1 then None
    else Pending(r, n - 1)
  }

  ghost predicate Begins(r: Run, n: nat)
    requires n < |r.labels|
  {
    r.labels[n].BeginCall? && HandsOff(r, n, r.labels[n].id)
  }

  /** The table holds exactly the pending dispatch. */
  predicate Holds(s: State, pending: Option<u64>) {
    match pending
    case None => s.dispatches == map[]
    case Some(id) => id in s.plans && s.dispatches == map[1 := EntryOf(s.plans[id])]
  }

  lemma HoldsAtFirst(r: Run)
    requires r.Legal()
    ensures Holds(r.At(0), None)
  {
  }

  lemma BeginHolds(s: State, id: u64, now: i64, n: nat)
    requires Inv(s, n) && BeginDispatch(s, id, now).Done?
    ensures Holds(AfterBegin(s, id, now), Some(id))
  {
    BeginKeeps(s, id, now, n);
    BeginIsOfAuthorized(s, id, now);
    hide Inv;
    hide BeginDispatch;
    hide PlansMove;
  }

  lemma ResolveHolds(s: State, d: u64, outcome: Outcome, pending: Option<u64>)
    requires Holds(s, pending)
    ensures Holds(AfterResolve(s, d, outcome), if d == 1 then None else pending)
  {
    hide EntryOf;
  }

  lemma StillHolds(s: State, t: State, pending: Option<u64>)
    requires Holds(s, pending) && t.dispatches == s.dispatches && PlansMove(s.plans, t.plans)
    ensures Holds(t, pending)
  {
    hide EntryOf;
    hide Evolves;
    if pending.Some? {
      EvolvesMeans(s.plans[pending.value], t.plans[pending.value]);
    }
  }

  /** One step keeps the slot in step with `Pending`. */
  lemma StepHolds(s: State, l: Label, sha: Hash, n: nat, pending: Option<u64>)
    requires Inv(s, n) && n < TWO_32 && Holds(s, pending)
    ensures var t := Step(s, l, sha);
            Holds(t,
              if l.BeginCall? && BeginDispatch(s, l.id, l.now).Done? then Some(l.id)
              else if l.ResolveCall? && l.dispatchId == 1 then None
              else pending)
  {
    hide Inv;
    hide PlansMove;
    hide Holds;
    hide Quiet;
    hide Newborn;
    hide BeginDispatch;
    hide AfterPlan;
    hide AfterResolve;
    if l.BeginCall? {
      if BeginDispatch(s, l.id, l.now).Done? {
        BeginHolds(s, l.id, l.now, n);
      } else {
        assert Step(s, l, sha) == s;
      }
    } else if l.ResolveCall? {
      ResolveHolds(s, l.dispatchId, l.outcome, pending);
    } else {
      StepKeeps(s, l, sha, n);
      StepEffect(s, l, sha, n);
      hide Step;
      StillHolds(s, Step(s, l, sha), pending);
    }
  }

  /** At any time the table holds exactly the pending dispatch, under id 1, with the fences of its plan. */
  lemma {:induction false} TableIsPending(r: Run, n: nat)
    requires r.Legal() && n <= |r.labels|
    ensures Holds(r.At(n), Pending(r, n))
    decreases n
  {
    hide Holds;
    hide RawRun.At;
    hide Step;
    hide BeginDispatch;
    hide Inv;
    hide Effect;
    if n == 0 {
      HoldsAtFirst(r);
    } else {
      TableIsPending(r, n - 1);
      StepAt(r, n - 1);
      StepHolds(r.At(n - 1), r.labels[n - 1], r.sha, r.Added(n - 1), Pending(r, n - 1));
    }
  }

  /** Between two times no dispatch begins and no completion is resolved. */
  ghost predicate Undisturbed(r: Run, i: nat, j: nat)
    requires i <= j <= |r.labels|
  {
    forall k :: i <= k < j ==> !Begins(r, k) && !(r.labels[k].ResolveCall? && r.labels[k].dispatchId == 1)
  }

  lemma {:induction false} PendingStays(r: Run, i: nat, j: nat)
    requires i <= j <= |r.labels| && Undisturbed(r, i, j)
    ensures Pending(r, j) == Pending(r, i)
    decreases j
  {
    hide Begins;
    if i < j {
      PendingStays(r, i, j - 1);
    }
  }

  /** The report that a completion becomes when it names the plan `id` of a state. */
  function ReportFor(s: State, id: u64, outcome: Outcome): Report
    requires id in s.plans
  {
    Report(id, s.plans[id].generation, s.plans[id].targetBoot, outcome)
  }

  /** A completion is attributed to a plan: it becomes a report for it. */
  predicate Attributed(s: State, dispatchId: u64, outcome: Outcome, id: u64) {
    var report := ResolveCompletion(s, dispatchId, outcome).report;
    report.Some? && report.value.planId == id
  }

  lemma ResolveOfHeld(s: State, id: u64, d: u64, outcome: Outcome)
    requires Holds(s, Some(id)) && s.plans[id].planId == id
    ensures ResolveCompletion(s, d, outcome).report == if d == 1 then Some(ReportFor(s, id, outcome)) else None
  {
  }

  lemma ResolveOfNone(s: State, d: u64, outcome: Outcome)
    requires Holds(s, None)
    ensures ResolveCompletion(s, d, outcome) == Resolved(s, None)
  {
  }

  /**
   A completion is attributed if and only if it names the id 1 and a dispatch is pending: then to the plan of
   that dispatch, with its generation and boot, and to no other.
   */
  lemma CompletionIsAttributed(r: Run, n: nat, d: u64, outcome: Outcome)
    requires r.Legal() && n <= |r.labels|
    ensures Pending(r, n).Some? ==> Pending(r, n).value in r.At(n).plans
    ensures ResolveCompletion(r.At(n), d, outcome).report ==
              if d == 1 && Pending(r, n).Some? then Some(ReportFor(r.At(n), Pending(r, n).value, outcome)) else None
  {
    hide *;
    TableIsPending(r, n);
    if Pending(r, n).Some? {
      HeldPlan(r.At(n), Pending(r, n).value);
      PlanIdAt(r, n, Pending(r, n).value);
      ResolveOfHeld(r.At(n), Pending(r, n).value, d, outcome);
    } else {
      ResolveOfNone(r.At(n), d, outcome);
    }
  }

  lemma AttributedIsPending(r: Run, n: nat, d: u64, outcome: Outcome, id: u64)
    requires r.Legal() && n <= |r.labels|
    ensures Attributed(r.At(n), d, outcome, id) <==> d == 1 && Pending(r, n) == Some(id)
  {
    CompletionIsAttributed(r, n, d, outcome);
    hide ResolveCompletion;
    hide Pending;
    hide RawRun.Legal;
  }

  /** The hand-off of the pending plan, undisturbed since. */
  lemma {:induction false} PendingMeans(r: Run, n: nat, id: u64) returns (i: nat)
    requires n <= |r.labels| && Pending(r, n) == Some(id)
    ensures i < n && HandsOff(r, i, id) && Undisturbed(r, i + 1, n)
    decreases n
  {
    hide HandsOff;
    if Begins(r, n - 1) {
      i := n - 1;
    } else {
      i := PendingMeans(r, n - 1, id);
    }
  }

  /**
   A completion reaches the dispatch that it was issued for if and only if it names the id 1, no other dispatch
   has begun since and none has been completed; it then carries the fences of that plan.
   */
  lemma CompletionReachesItsDispatch(r: Run, i: nat, j: nat, id: u64, d: u64, outcome: Outcome)
    requires r.Legal() && i < j <= |r.labels| && HandsOff(r, i, id)
    ensures Attributed(r.At(j), d, outcome, id) <==> d == 1 && Undisturbed(r, i + 1, j)
    ensures id in r.At(j).plans
    ensures Attributed(r.At(j), d, outcome, id) ==>
              ResolveCompletion(r.At(j), d, outcome).report == Some(ReportFor(r.At(j), id, outcome))
  {
    hide *;
    HandOffCounts(r, i, id);
    PlansEvolveOverRuns(r, i + 1, j, id);
    AttributedIsPending(r, j, d, outcome, id);
    CompletionIsAttributed(r, j, d, outcome);
    if Undisturbed(r, i + 1, j) {
      PendingAfterHandOff(r, i, id);
      PendingStays(r, i + 1, j);
    }
    if Pending(r, j) == Some(id) {
      var k := PendingMeans(r, j, id);
      AtMostOneHandOff(r, i, k, id);
    }
  }

  /** Step `n` resolves a completion that is attributed to plan `id`. */
  ghost predicate Consumes(r: Run, n: nat, id: u64)
    requires n < |r.labels|
  {
    r.labels[n].ResolveCall? && Attributed(r.At(n), r.labels[n].dispatchId, r.labels[n].outcome, id)
  }

  /** In a run, completions are attributed to a plan at most once. */
  lemma ConsumedAtMostOnce(r: Run, i: nat, j: nat, id: u64)
    requires r.Legal() && i < |r.labels| && j < |r.labels|
    requires Consumes(r, i, id) && Consumes(r, j, id)
    ensures i == j
  {
    var a, b := if i < j then i else j, if i < j then j else i;
    hide *;
    if a < b {
      ConsumesPending(r, a, id);
      ConsumesPending(r, b, id);
      var h := PendingMeans(r, a, id);
      var k := PendingMeans(r, b, id);
      AtMostOneHandOff(r, h, k, id);
      ConsumedDisturbs(r, k + 1, a, b);
    }
  }

  lemma ConsumesPending(r: Run, n: nat, id: u64)
    requires r.Legal() && n < |r.labels| && Consumes(r, n, id)
    ensures Pending(r, n) == Some(id) && r.labels[n].ResolveCall? && r.labels[n].dispatchId == 1
  {
    AttributedIsPending(r, n, r.labels[n].dispatchId, r.labels[n].outcome, id);
    hide Pending;
    hide Attributed;
    hide RawRun.Legal;
  }

  lemma ConsumedDisturbs(r: Run, i: nat, n: nat, j: nat)
    requires i <= n < j <= |r.labels| && r.labels[n].ResolveCall? && r.labels[n].dispatchId == 1
    ensures !Undisturbed(r, i, j)
  {
    hide Begins;
  }

  lemma PendingAfterHandOff(r: Run, n: nat, id: u64)
    requires n < |r.labels| && HandsOff(r, n, id)
    ensures Pending(r, n + 1) == Some(id)
  {
    hide RawRun.At;
    hide BeginDispatch;
  }

  lemma HeldPlan(s: State, id: u64)
    requires Holds(s, Some(id))
    ensures id in s.plans
  {
  }

  lemma PlanIdAt(r: Run, n: nat, id: u64)
    requires r.Legal() && n <= |r.labels| && id in r.At(n).plans
    ensures r.At(n).plans[id].planId == id
  {
    hide RawRun.At;
    PlanAt(r, n, id);
  }

  /**
   Once another plan has been dispatched, no completion is ever attributed to the first one again: both dispatches
   carry the id 1, and as long as nothing disturbs the second one, every completion is its own.
   */
  lemma LateCompletionIsMisattributed(r: Run, i: nat, j: nat, n: nat, a: u64, b: u64, d: u64, outcome: Outcome)
    requires r.Legal() && i < j < n <= |r.labels| && HandsOff(r, i, a) && HandsOff(r, j, b)
    ensures a != b
    ensures BeginDispatch(r.At(i), a, r.labels[i].now).value.dispatch.dispatchId == 1
    ensures BeginDispatch(r.At(j), b, r.labels[j].now).value.dispatch.dispatchId == 1
    ensures !Attributed(r.At(n), d, outcome, a)
    ensures Attributed(r.At(n), d, outcome, b) <==> d == 1 && Undisturbed(r, j + 1, n)
  {
    hide *;
    DispatchIdIsOne(r, i, a);
    DispatchIdIsOne(r, j, b);
    if a == b {
      AtMostOneHandOff(r, i, j, a);
    }
    HandOffDisturbs(r, i + 1, j, n, b);
    CompletionReachesItsDispatch(r, i, n, a, d, outcome);
    CompletionReachesItsDispatch(r, j, n, b, d, outcome);
  }

  lemma HandOffDisturbs(r: Run, i: nat, j: nat, n: nat, id: u64)
    requires i <= j < n <= |r.labels| && HandsOff(r, j, id)
    ensures !Undisturbed(r, i, n)
  {
    assert Begins(r, j);
    hide HandsOff;
  }

  lemma NothingInBetween(r: Run, i: nat)
    requires i <= |r.labels|
    ensures Undisturbed(r, i, i)
  {
    hide Begins;
  }

  lemma DispatchIdIsOne(r: Run, n: nat, id: u64)
    requires r.Legal() && n < |r.labels| && HandsOff(r, n, id)
    ensures BeginDispatch(r.At(n), id, r.labels[n].now).Done?
    ensures BeginDispatch(r.At(n), id, r.labels[n].now).value.dispatch.dispatchId == 1
  {
    StepAt(r, n);
    hide RawRun.At;
    hide Effect;
    hide Inv;
    hide BeginDispatch;
    BeginKeeps(r.At(n), id, r.labels[n].now, r.Added(n));
    hide PlansMove;
  }

  /** A report changes no plan but the one it names, and none at all unless it passes the fences. */
  lemma ReportIsFenced(s: State, report: Report, now: i64)
    ensures var t := ReportExecution(s, report, now);
            && t == s.(plans := t.plans)
            && t.plans.Keys == s.plans.Keys
            && (forall k :: k in s.plans && k != report.planId ==> t.plans[k] == s.plans[k])
            && (report.planId in s.plans && report.planGeneration != s.plans[report.planId].generation ==> t == s)
            && (report.planId in s.plans && report.reporterBoot != s.plans[report.planId].targetBoot ==> t == s)
            && (report.planId in s.plans && Terminal(s.plans[report.planId].life) ==> t == s)
            && (report.planId !in s.plans ==> t == s)
  {
  }
}
