/** Where a snapshot is cut off decides what its rejection leaves of the planner that it is applied to. */
module Truncation {
  import opened Integers
  import opened Domain
  import opened Codec
  import opened Snapshot
  import opened SnapshotProofs
  import KeyOrder

  /** The bytes of the format version and of the seven generations. */
  const HEAD: nat := 60

  /** The bytes up to and including the count of requests. */
  function UpToRequests(s: State): nat { HEAD + 4 + 16 * |s.ctx.workerBoots| + 4 }

  // ---- How many bytes the reads need ----------------------------------------------------------

  /** After a read of `n` bytes: failed if there were fewer, otherwise that much further. */
  predicate Advances(c: Cursor, next: Cursor, n: nat) {
    next.data == c.data && (next.failed <==> !c.Has(n)) && (!next.failed ==> next.pos == c.pos + n)
  }

  lemma U32Advances(c: Cursor)
    ensures Advances(c, ReadU32(c).at, 4)
  {
    hide Number;
  }

  lemma U64Advances(c: Cursor)
    ensures Advances(c, ReadU64(c).at, 8)
  {
    hide Number;
  }

  lemma {:induction false} U64sAdvance(c: Cursor, k: nat)
    ensures Advances(c, ReadU64s(c, k).at, 8 * k)
    decreases k
  {
    hide ReadU64;
    if k > 0 {
      U64Advances(c);
      U64sAdvance(ReadU64(c).at, k - 1);
    }
  }

  lemma {:induction false} WorkersAdvance(c: Cursor, n: nat, into: map<u64, u64>)
    ensures Advances(c, ReadWorkers(c, n, into).at, 16 * n)
    decreases n
  {
    hide ReadU64;
    if n > 0 {
      var w := ReadU64(c);
      var b := ReadU64(w.at);
      U64Advances(c);
      U64Advances(w.at);
      WorkersAdvance(b.at, n - 1, into[w.value := b.value]);
    }
  }

  // ---- The cursors of a truncated snapshot ----------------------------------------------------

  /** The cursor after the generations. */
  function AfterHead(bytes: seq<byte>): Cursor { ReadU64s(ReadU32(RawCursor(bytes, 0, false)).at, 7).at }

  /** The cursor after the workers. */
  function AfterWorkers(bytes: seq<byte>): Cursor {
    var n := ReadU32(AfterHead(bytes));
    ReadWorkers(n.at, n.value, map[]).at
  }

  lemma HeadIsRead(s: State, n: nat)
    requires n <= |EncodeSnapshot(s)|
    ensures var bytes := EncodeSnapshot(s)[..n];
            && (n < HEAD ==> AfterHead(bytes).failed)
            && (n >= HEAD ==> !AfterHead(bytes).failed && AfterHead(bytes).pos == HEAD)
            && Tracks(AfterHead(bytes), WorkerSection(s), EncodeSnapshot(s)[n..])
  {
    var all := EncodeSnapshot(s);
    hide EncodeSnapshot;
    assert all[..n] + all[n..] == all;
    GenerationsRead(s, all[..n], all[n..]);
    var c := RawCursor(all[..n], 0, false);
    U32Advances(c);
    U64sAdvance(ReadU32(c).at, 7);
    hide ReadU32;
    hide ReadU64s;
    hide Tracks;
  }

  lemma WorkersAreRead(s: State, n: nat)
    requires Countable(s) && HEAD <= n <= |EncodeSnapshot(s)|
    ensures ReadU32(AfterWorkers(EncodeSnapshot(s)[..n])).at.failed <==> n < UpToRequests(s)
  {
    var bytes, missing := EncodeSnapshot(s)[..n], EncodeSnapshot(s)[n..];
    var boots := s.ctx.workerBoots;
    HeadIsRead(s, n);
    hide EncodeSnapshot;
    var c := AfterHead(bytes);
    assert c.data == bytes by { HeadFollows(bytes); }
    hide AfterHead;
    hide Tracks;
    hide ReadU32;
    hide ReadWorkers;
    hide WorkerTokens;
    hide RequestSection;
    hide Count;
    CountFits(|boots|);
    U32Taken(c, |boots|, WorkerTokens(boots, KeyOrder.SortedKeys(boots.Keys), RequestSection(s)), missing);
    hide KeyOrder.SortedKeys;
    var count := ReadU32(c);
    U32Advances(c);
    WorkersAdvance(count.at, count.value, map[]);
    U32Advances(AfterWorkers(bytes));
  }

  lemma HeadFollows(bytes: seq<byte>)
    ensures AfterHead(bytes).data == bytes
  {
    hide ReadU32;
    hide ReadU64s;
  }

  // ---- What is left of the planner ------------------------------------------------------------

  predicate Untouched(t: State, r: State) {
    r.requests == t.requests && r.plans == t.plans && r.history == t.history
  }

  predicate Wiped(r: State) { r.requests == map[] && r.plans == map[] && r.history == [] }

  lemma FailedHead(t: State, bytes: seq<byte>, preserve: bool)
    requires AfterHead(bytes).failed
    ensures Untouched(t, ApplySnapshot(t, bytes, preserve).state)
  {
    hide ReadU32;
    hide ReadU64s;
    hide ApplyWorkers;
  }

  /** The state that the requests are applied to, for a snapshot whose head is readable. */
  function AtRequests(t: State, bytes: seq<byte>, preserve: bool): State {
    var g := ReadU64s(ReadU32(RawCursor(bytes, 0, false)).at, 7);
    var n := ReadU32(g.at);
    var ctx := WithGenerations(t.ctx, g.value, preserve);
    t.(ctx := ctx.(workerBoots := ReadWorkers(n.at, n.value, map[]).value, aliveWorkers := {}))
  }

  lemma AppliesRequests(t: State, bytes: seq<byte>, preserve: bool)
    requires !AfterHead(bytes).failed && ReadU32(RawCursor(bytes, 0, false)).value == FORMAT_VERSION
    ensures ApplySnapshot(t, bytes, preserve) == ApplyRequests(AtRequests(t, bytes, preserve), AfterWorkers(bytes))
  {
    hide ReadU32;
    hide ReadU64s;
    hide ReadWorkers;
    hide ApplyRequests;
  }

  lemma VersionIsRead(s: State, n: nat)
    requires HEAD <= n <= |EncodeSnapshot(s)|
    ensures ReadU32(RawCursor(EncodeSnapshot(s)[..n], 0, false)).value == FORMAT_VERSION
  {
    var all := EncodeSnapshot(s);
    hide EncodeSnapshot;
    assert all[..n] + all[n..] == all;
    GenerationsRead(s, all[..n], all[n..]);
    U32Advances(RawCursor(all[..n], 0, false));
    hide ReadU32;
    hide ReadU64s;
    hide Tracks;
  }

  lemma WipedRest(t: State)
    ensures Wiped(t.(requests := map[], plans := map[], history := []))
  {
  }

  /** On any bytes with a readable head: if the count of requests is missing, the call fails after wiping. */
  lemma MissingCountWipes(t: State, bytes: seq<byte>, preserve: bool)
    requires !AfterHead(bytes).failed && ReadU32(RawCursor(bytes, 0, false)).value == FORMAT_VERSION
    requires ReadU32(AfterWorkers(bytes)).at.failed
    ensures !ApplySnapshot(t, bytes, preserve).ok && Wiped(ApplySnapshot(t, bytes, preserve).state)
  {
    hide *;
    AppliesRequests(t, bytes, preserve);
    RequestsFail(AtRequests(t, bytes, preserve), AfterWorkers(bytes));
    WipedRest(AtRequests(t, bytes, preserve));
  }

  /**
   A snapshot that is cut off among its generations leaves requests, plans and history alone; one that is
   cut off later, up to the count of requests, wipes all three, because the worker loop goes on after a
   failed read and the collections are cleared before their counts are known to have been read.
   */
  lemma TruncationWipes(t: State, s: State, n: nat, preserve: bool)
    requires Countable(s) && n <= |EncodeSnapshot(s)|
    ensures var r := ApplySnapshot(t, EncodeSnapshot(s)[..n], preserve).state;
            && (n < HEAD ==> Untouched(t, r))
            && (HEAD <= n < UpToRequests(s) ==> Wiped(r))
  {
    var bytes := EncodeSnapshot(s)[..n];
    HeadIsRead(s, n);
    hide Tracks;
    if n < HEAD {
      FailedHead(t, bytes, preserve);
    } else if n < UpToRequests(s) {
      WorkersAreRead(s, n);
      VersionIsRead(s, n);
      hide *;
      MissingCountWipes(t, bytes, preserve);
    }
    hide *;
  }

  /** A snapshot cut off after `n` bytes is harmless to every planner if and only if `n` is below 60. */
  lemma TruncationIsHarmlessIff(s: State, n: nat, preserve: bool)
    requires Countable(s) && n <= |EncodeSnapshot(s)|
    ensures (forall t :: Untouched(t, ApplySnapshot(t, EncodeSnapshot(s)[..n], preserve).state)) <==> n < HEAD
  {
    var bytes := EncodeSnapshot(s)[..n];
    if n < HEAD {
      HeadIsRead(s, n);
      hide *;
      forall t ensures Untouched(t, ApplySnapshot(t, bytes, preserve).state) {
        FailedHead(t, bytes, preserve);
      }
    } else {
      HeadIsRead(s, n);
      VersionIsRead(s, n);
      hide *;
      var t := TouchedState(bytes, preserve);
    }
  }

  /** The requests afterwards do not depend on those before, so they cannot equal both an empty map and another. */
  lemma TouchedState(bytes: seq<byte>, preserve: bool) returns (t: State)
    requires !AfterHead(bytes).failed && ReadU32(RawCursor(bytes, 0, false)).value == FORMAT_VERSION
    ensures !Untouched(t, ApplySnapshot(t, bytes, preserve).state)
  {
    hide AfterHead;
    hide ReadU32;
    hide ApplySnapshot;
    hide ApplyRequests;
    hide AtRequests;
    hide AfterWorkers;
    hide ReadRequests;
    var q := Request(0, 0, 0, 0, 0, 0, [], None, None, None, [], [], 0, 0, 0, 0, [], [], []);
    t := INITIAL;
    var t' := INITIAL.(requests := map[0 := q]);
    AppliesRequests(t, bytes, preserve);
    AppliesRequests(t', bytes, preserve);
    RequestsFromLoop(AtRequests(t, bytes, preserve), AfterWorkers(bytes));
    RequestsFromLoop(AtRequests(t', bytes, preserve), AfterWorkers(bytes));
    if ApplySnapshot(t, bytes, preserve).state.requests == map[] {
      assert 0 in t'.requests;
      t := t';
    }
  }
}
