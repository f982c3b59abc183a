/** Coordinator restart through the store, compared with a restart that has no store. */
module Restart {
  import opened Integers
  import opened Domain
  import opened Codec
  import opened Snapshot
  import opened SnapshotProofs
  import opened Lifecycle
  import KeyOrder
  import Persistence
  import Wording

  /** What a snapshot keeps of a planner state. */
  function Projection(s: State): State {
    s.(requests := DurableRequests(s), plans := DurablePlans(s), history := CutAll(s.history))
  }

  // ---- The reload -----------------------------------------------------------------------------

  /** The snapshot was saved just before, so a reload reads it back whatever else the store holds. */
  lemma ReloadReadsTheSave(s: State, t: State, d: Persistence.Disk)
    ensures SaveState(s, d).TooLarge? <==> d.OnFiles? && |EncodeSnapshot(s)| > Persistence.MAX_PAYLOAD
    ensures SaveState(s, d).Saved? ==>
              Reload(t, Persistence.Load(SaveState(s, d).disk, STATE_KEY)) == ApplySnapshot(t, EncodeSnapshot(s), true).state
  {
    hide EncodeSnapshot;
    hide ApplySnapshot;
    hide Persistence.Save;
    hide Persistence.Load;
    Persistence.LoadAfterSave(d, STATE_KEY, EncodeSnapshot(s));
  }

  /**
   Another planner on the same store: `load_state` brings the epoch, the plans, the requests and the history of the
   planner that saved, cut at NULs, and leaves its own id counters and dispatch table, which no snapshot holds.
   */
  lemma SavedStateIsLoaded(s: State, t: State, d: Persistence.Disk)
    requires Countable(s) && WellKeyed(s) && Persistable(s) && SaveState(s, d).Saved?
    ensures var blob := Persistence.Load(SaveState(s, d).disk, STATE_KEY);
            && blob.Some?
            && var r := ApplySnapshot(t, blob.value, false);
               && r.ok
               && ContextLoaded(t.ctx, s.ctx, false, r.state.ctx)
               && r.state.plans == DurablePlans(s) && r.state.requests == DurableRequests(s) && r.state.history == CutAll(s.history)
               && r.state.dispatches == t.dispatches
               && r.state.nextPlanId == t.nextPlanId && r.state.nextGeneration == t.nextGeneration
  {
    SavedIsLoaded(s, d);
    hide *;
    SnapshotRoundTrip(t, s, false);
    ContextRoundTrip(t, s, false);
    RestoredRest(t, s, false);
  }

  lemma SavedIsLoaded(s: State, d: Persistence.Disk)
    requires SaveState(s, d).Saved?
    ensures Persistence.Load(SaveState(s, d).disk, STATE_KEY) == Some(EncodeSnapshot(s))
  {
    hide EncodeSnapshot;
    hide Persistence.Save;
    hide Persistence.Load;
    Persistence.LoadAfterSave(d, STATE_KEY, EncodeSnapshot(s));
  }

  lemma RestoredRest(t: State, s: State, preserve: bool)
    ensures var r := Restored(t, s, preserve);
            && r.requests == DurableRequests(s) && r.plans == DurablePlans(s) && r.history == CutAll(s.history)
            && r.dispatches == t.dispatches && r.nextPlanId == t.nextPlanId && r.nextGeneration == t.nextGeneration
  {
    hide DurableRequests;
    hide DurablePlans;
    hide CutAll;
    hide RestoredContext;
  }

  lemma RestoredAfterNewEpoch(s: State)
    ensures Restored(NewEpoch(s), s, true) == NewEpoch(Projection(s))
  {
    hide DurableRequests;
    hide DurablePlans;
    hide CutAll;
  }

  /**
   A restart through the store is a restart without one, of the projection that a snapshot keeps. It
   throws exactly when the snapshot is too large for a file, and has changed nothing then.
   */
  lemma RestartThroughStore(s: State, d: Persistence.Disk, now: i64)
    requires Countable(s) && WellKeyed(s) && Persistable(s)
    ensures var r := RestartCoordinator(s, Some(d), now);
            && (r.Thrown? <==> d.OnFiles? && |EncodeSnapshot(s)| > Persistence.MAX_PAYLOAD)
            && (r.Done? ==> r.value.state == RestartCoordinator(Projection(s), None, now).value.state)
  {
    hide EncodeSnapshot;
    hide ApplySnapshot;
    hide SaveState;
    hide Reload;
    hide NewEpoch;
    hide Recover;
    hide Projection;
    ReloadReadsTheSave(s, NewEpoch(s), d);
    SnapshotRoundTrip(NewEpoch(s), s, true);
    RestoredAfterNewEpoch(s);
  }

  // ---- The effect of a restart ----------------------------------------------------------------

  /** What a restart keeps and what it forgets of the world. */
  predicate RestartedContext(before: Context, after: Context) {
    after == before.(epoch := Next(before.epoch), plannerBoot := Next(before.plannerBoot), aliveWorkers := {},
                     resources := map[], recomputeLineage := {}, originalInputs := {})
  }

  /** Terminal plans keep everything; exactly the live ones become INVALIDATED, and only that. */
  predicate RestartedPlans(before: map<u64, Plan>, after: map<u64, Plan>, now: i64) {
    && after.Keys == before.Keys
    && (forall k :: k in before && Terminal(before[k].life) ==> after[k] == before[k])
    && (forall k :: k in before && !Terminal(before[k].life) ==> after[k] == before[k].(life := Invalidated, updatedAt := now))
  }

  lemma InvalidateAllRestarts(plans: map<u64, Plan>, now: i64)
    ensures RestartedPlans(plans, InvalidateAll(plans, now), now)
  {
  }

  /** `Recover` invalidates live plans, appends the entry, and touches nothing else. */
  lemma RecoverEffect(s: State, now: i64)
    ensures var r := Recover(s, now);
            && r == s.(plans := r.plans, history := r.history)
            && RestartedPlans(s.plans, r.plans, now)
            && r.history == s.history + [Wording.RestartEntry(s.ctx.epoch, s.ctx.plannerBoot)]
  {
    InvalidateAllRestarts(s.plans, now);
    hide Wording.RestartEntry;
    hide InvalidateAll;
    hide RestartedPlans;
  }

  /** The whole effect of a restart through the store, on a state that the snapshot can hold. */
  lemma RestartEffect(s: State, d: Persistence.Disk, now: i64)
    requires Countable(s) && WellKeyed(s) && Persistable(s)
    requires RestartCoordinator(s, Some(d), now).Done?
    ensures var r := RestartCoordinator(s, Some(d), now).value.state;
            && RestartedContext(s.ctx, r.ctx)
            && RestartedPlans(DurablePlans(s), r.plans, now)
            && r.requests == DurableRequests(s)
            && r.dispatches == s.dispatches
            && r.history == CutAll(s.history) + [Wording.RestartEntry(r.ctx.epoch, r.ctx.plannerBoot)]
            && r.nextPlanId == s.nextPlanId && r.nextGeneration == s.nextGeneration
  {
    RestartThroughStore(s, d, now);
    var t := NewEpoch(Projection(s));
    RecoverEffect(t, now);
    hide EncodeSnapshot;
    hide SaveState;
    hide Reload;
    hide Recover;
    hide RestartedPlans;
    hide DurableRequests;
    hide DurablePlans;
    hide CutAll;
    hide Countable;
    hide WellKeyed;
    hide Persistable;
    hide Wording.RestartEntry;
    assert RestartCoordinator(s, Some(d), now).value.state == Recover(t, now);
    hide RestartCoordinator;
  }

  // ---- Snapshots that the reader rejects ------------------------------------------------------

  /** The requests that the reader gets to: those up to the first one, in key order, that it rejects. */
  predicate Readable(s: State, k: u64) {
    k in s.requests && forall j :: j in s.requests && j <= k ==> ShortRequest(s.requests[j])
  }

  function ReadableRequests(s: State): map<u64, Request> {
    map k | k in s.requests && Readable(s, k) :: DurableRequest(s.requests[k])
  }

  /** The longest prefix that the reader accepts. */
  function ShortPrefix(qs: seq<Request>): (n: nat)
    ensures n <= |qs|
    ensures forall i :: 0 <= i < n ==> ShortRequest(qs[i])
    ensures n < |qs| ==> !ShortRequest(qs[n])
  {
    if qs == [] || !ShortRequest(qs[0]) then 0 else 1 + ShortPrefix(qs[1..])
  }

  /** The loop over requests inserts exactly the prefix before the first request that it rejects. */
  lemma {:induction false} PrefixIsRead(c: Cursor, qs: seq<Request>, into: map<u64, Request>, rest: Tokens)
    requires !c.failed && Tracks(c, RequestsTokens(qs, rest), [])
    ensures ReadRequests(c, |qs|, into).result == KeyOrder.InsertAll(into, qs[..ShortPrefix(qs)], RequestKey, DurableRequest)
    decreases |qs|
  {
    hide Encode;
    hide Tracks;
    hide ReadRequest;
    hide ShortRequest;
    hide RequestTokens;
    if qs != [] {
      RequestTaken(c, qs[0], RequestsTokens(qs[1..], rest), []);
      var q := ReadRequest(c);
      if !q.at.failed {
        PrefixIsRead(q.at, qs[1..], into[q.value.requestId := q.value], rest);
        assert qs[..ShortPrefix(qs)][1..] == qs[1..][..ShortPrefix(qs[1..])];
      }
    }
  }

  /** The entries before the first rejected one are those with readable keys. */
  lemma PrefixIsReadable(s: State, k: u64)
    requires k in s.requests
    ensures var ks, qs := KeyOrder.SortedKeys(s.requests.Keys), KeyOrder.Entries(s.requests);
            |ks| == |qs| && (k in ks[..ShortPrefix(qs)] <==> Readable(s, k))
  {
    var ks, qs := KeyOrder.SortedKeys(s.requests.Keys), KeyOrder.Entries(s.requests);
    KeyOrder.EntriesAt(s.requests);
    hide KeyOrder.SortedKeys;
    hide KeyOrder.Entries;
    hide ShortRequest;
    var n := ShortPrefix(qs);
    var i :| 0 <= i < |ks| && ks[i] == k;
    if i < n {
      assert ks[..n][i] == k;
      forall j | j in s.requests && j <= k ensures ShortRequest(s.requests[j]) {
        var m :| 0 <= m < |ks| && ks[m] == j;
        if i < m {
          KeyOrder.KeysIncrease(s.requests.Keys, i, m);
        }
        assert ShortRequest(qs[m]);
      }
    } else {
      if n < i {
        KeyOrder.KeysIncrease(s.requests.Keys, n, i);
      }
      assert !ShortRequest(s.requests[ks[n]]) && ks[n] <= k;
      if k in ks[..n] {
        var m :| 0 <= m < n && ks[..n][m] == k;
        KeyOrder.KeysIncrease(s.requests.Keys, m, i);
      }
    }
  }

  /** The keys and the values of the prefix, side by side. */
  lemma PrefixValues(s: State, n: nat)
    requires n <= |KeyOrder.Entries(s.requests)|
    ensures var ks := KeyOrder.SortedKeys(s.requests.Keys);
            && n <= |ks|
            && (forall k :: k in ks[..n] ==> k in s.requests)
            && KeyOrder.Entries(s.requests)[..n] == KeyOrder.ValuesAt(s.requests, ks[..n])
  {
    KeyOrder.EntriesAt(s.requests);
    hide KeyOrder.SortedKeys;
    hide KeyOrder.Entries;
  }

  lemma PrefixRebuilds(s: State)
    requires WellKeyed(s)
    ensures var qs := KeyOrder.Entries(s.requests);
            KeyOrder.InsertAll(map[], qs[..ShortPrefix(qs)], RequestKey, DurableRequest) == ReadableRequests(s)
  {
    var n := ShortPrefix(KeyOrder.Entries(s.requests));
    var ks := KeyOrder.SortedKeys(s.requests.Keys);
    assert forall k :: k in s.requests ==> RequestKey(s.requests[k]) == k;
    hide WellKeyed;
    hide KeyOrder.SortedKeys;
    hide KeyOrder.Entries;
    hide KeyOrder.InsertAll;
    hide ShortPrefix;
    hide Readable;
    hide DurableRequest;
    PrefixValues(s, n);
    KeyOrder.InsertAllUnder(s.requests, ks[..n], map[], RequestKey, DurableRequest);
    forall k | k in s.requests ensures k in ks[..n] <==> Readable(s, k) {
      PrefixIsReadable(s, k);
    }
    var r := KeyOrder.InsertAll(map[], KeyOrder.ValuesAt(s.requests, ks[..n]), RequestKey, DurableRequest);
    assert r.Keys == (set k | k in ks[..n]);
    SameRequests(r, ks[..n], s);
  }

  lemma SameRequests(r: map<u64, Request>, ks: seq<u64>, s: State)
    requires forall k :: k in r <==> k in ks
    requires forall k :: k in ks ==> k in s.requests && Readable(s, k) && r[k] == DurableRequest(s.requests[k])
    requires forall k :: k in s.requests && Readable(s, k) ==> k in ks
    ensures r == ReadableRequests(s)
  {
    hide Readable;
    hide DurableRequest;
  }

  lemma RequestCountTaken(s: State, c: Cursor)
    requires |s.requests| < TWO_32 && !c.failed
    requires Tracks(c, RequestSection(s), [])
    ensures var n := ReadU32(c);
            && n.value == |s.requests| && !n.at.failed
            && Tracks(n.at, RequestsTokens(KeyOrder.Entries(s.requests), PlanSection(s)), [])
  {
    hide Encode;
    hide Tracks;
    hide Count;
    hide ReadU32;
    hide RequestsTokens;
    hide PlanSection;
    hide KeyOrder.Entries;
    CountFits(|s.requests|);
    U32Taken(c, |s.requests|, RequestsTokens(KeyOrder.Entries(s.requests), PlanSection(s)), []);
  }

  lemma RequestsApply(t: State, s: State, c: Cursor)
    requires Countable(s) && WellKeyed(s) && !c.failed
    requires Tracks(c, RequestSection(s), [])
    ensures ApplyRequests(t, c).state.requests == ReadableRequests(s)
  {
    assert |s.requests| < TWO_32;
    hide *;
    RequestCountTaken(s, c);
    PrefixIsRead(ReadU32(c).at, KeyOrder.Entries(s.requests), map[], PlanSection(s));
    PrefixRebuilds(s);
    RequestsFromLoop(t, c);
  }

  /** Whatever else fails, applying a snapshot restores exactly the readable requests. */
  lemma RequestsReapplied(t: State, s: State, preserve: bool)
    requires Countable(s) && WellKeyed(s)
    ensures ApplySnapshot(t, EncodeSnapshot(s), preserve).state.requests == ReadableRequests(s)
  {
    var bytes := EncodeSnapshot(s);
    assert bytes + [] == bytes;
    hide EncodeSnapshot;
    hide Tracks;
    hide ReadU32;
    hide ReadU64s;
    hide ReadWorkers;
    hide ReadableRequests;
    hide ApplyRequests;
    hide WellKeyed;
    hide WorkerSection;
    hide RequestSection;
    GenerationsRead(s, bytes, []);
    var g := ReadU64s(ReadU32(RawCursor(bytes, 0, false)).at, 7);
    WorkersRead(s, g.at, []);
    var ws := ReadWorkers(ReadU32(g.at).at, ReadU32(g.at).value, map[]);
    var ctx := WithGenerations(t.ctx, g.value, preserve);
    RequestsApply(t.(ctx := ctx).(ctx := ctx.(workerBoots := ws.value, aliveWorkers := {})), s, ws.at);
  }

  /** Plans and history whose strings the reader accepts and keeps as they are. */
  predicate PlansPersist(s: State) { PlansAreShort(s) && AllShort(s.history) && CutAll(s.history) == s.history }

  /** What is reloaded: everything, or, when some request is too long, no plan and no history. */
  lemma ReloadKeepsPlans(s: State)
    requires Countable(s) && WellKeyed(s) && PlansPersist(s)
    ensures var t := NewEpoch(s);
            var r := ApplySnapshot(t, EncodeSnapshot(s), true).state;
            && r == t.(requests := r.requests, plans := r.plans)
            && r.plans == (if RequestsAreShort(s) then DurablePlans(s) else s.plans)
            && r.requests == ReadableRequests(s)
  {
    var t, bytes := NewEpoch(s), EncodeSnapshot(s);
    assert bytes + [] == bytes;
    RequestsReapplied(t, s, true);
    hide EncodeSnapshot;
    SnapshotApplied(t, s, bytes, [], true);
    ArbitraryBytes(t, bytes, true);
    hide ApplySnapshot;
    hide ReadableRequests;
    hide RequestsAreShort;
    hide PlansAreShort;
    hide AllShort;
    hide CutAll;
    hide DurablePlans;
    hide DurableRequests;
  }

  /** The plans that a restart starts from. */
  function PlansAtRestart(s: State, disk: Option<Persistence.Disk>): map<u64, Plan> {
    if disk.Some? && RequestsAreShort(s) then DurablePlans(s) else s.plans
  }

  /** The requests that a restart leaves: without a store all of them, through one those that are readable. */
  function RequestsAtRestart(s: State, disk: Option<Persistence.Disk>): map<u64, Request> {
    if disk.Some? then ReadableRequests(s) else s.requests
  }

  /** `r` is `s` after a restart: no plan and no history is lost, and requests as far as they are readable. */
  predicate RestartedState(s: State, disk: Option<Persistence.Disk>, now: i64, r: State) {
    && RestartedContext(s.ctx, r.ctx)
    && RestartedPlans(PlansAtRestart(s, disk), r.plans, now)
    && r.requests == RequestsAtRestart(s, disk)
    && r.dispatches == s.dispatches
    && r.history == s.history + [Wording.RestartEntry(r.ctx.epoch, r.ctx.plannerBoot)]
    && r.nextPlanId == s.nextPlanId && r.nextGeneration == s.nextGeneration
  }

  /**
   A request that the reader rejects makes the reload stop half-way, and its result is not looked at.
   The plans survive even so: then they stay what they were in memory.
   */
  lemma RestartKeepsPlans(s: State, disk: Option<Persistence.Disk>, now: i64)
    requires Countable(s) && WellKeyed(s) && PlansPersist(s)
    requires RestartCoordinator(s, disk, now).Done?
    ensures RestartedState(s, disk, now, RestartCoordinator(s, disk, now).value.state)
  {
    hide EncodeSnapshot;
    hide ApplySnapshot;
    hide SaveState;
    hide Reload;
    hide Recover;
    hide Countable;
    hide WellKeyed;
    hide PlansPersist;
    hide RequestsAreShort;
    hide RestartedPlans;
    hide ReadableRequests;
    hide DurablePlans;
    hide Wording.RestartEntry;
    var t := NewEpoch(s);
    if disk.Some? {
      ReloadReadsTheSave(s, t, disk.value);
      ReloadKeepsPlans(s);
      t := ApplySnapshot(t, EncodeSnapshot(s), true).state;
    }
    assert RestartCoordinator(s, disk, now).value.state == Recover(t, now);
    hide RestartCoordinator;
    RecoverEffect(t, now);
  }

  /** A restart through a store loses no request exactly when no request holds a string that is too long. */
  lemma RestartKeepsRequestsIff(s: State, d: Persistence.Disk, now: i64)
    requires Countable(s) && WellKeyed(s) && PlansPersist(s)
    requires RestartCoordinator(s, Some(d), now).Done?
    ensures var r := RestartCoordinator(s, Some(d), now).value.state;
            && r.requests.Keys <= s.requests.Keys
            && (r.requests.Keys == s.requests.Keys <==> RequestsAreShort(s))
  {
    RestartKeepsPlans(s, Some(d), now);
    hide RestartCoordinator;
    hide RestartedContext;
    hide RestartedPlans;
    hide ShortRequest;
    ReadableKeys(s);
  }

  lemma ReadableKeys(s: State)
    ensures ReadableRequests(s).Keys <= s.requests.Keys
    ensures ReadableRequests(s).Keys == s.requests.Keys <==> RequestsAreShort(s)
  {
    hide ShortRequest;
    hide DurableRequest;
    if ReadableRequests(s).Keys == s.requests.Keys {
      forall k | k in s.requests ensures ShortRequest(s.requests[k]) {
        assert k in ReadableRequests(s);
        assert Readable(s, k);
      }
    }
  }
}
