/** `std::map` iteration: the entries of a map in increasing key order. */
module KeyOrder {
  import opened Integers

  ghost predicate IsLeast(k: u64, s: set<u64>) {
    k in s && forall j :: j in s ==> k <= j
  }

  lemma {:induction false} LeastExists(s: set<u64>) returns (k: u64)
    requires s != {}
    ensures IsLeast(k, s)
  {
    k :| k in s;
    var rest := s - {k};
    if rest == {} {
      forall j | j in s ensures k <= j {
        assert j == k || j in rest;
      }
    } else {
      var least := LeastExists(rest);
      forall j | j in s ensures (if k < least then k else least) <= j {
        assert j == k || j in rest;
      }
      k := if k < least then k else least;
    }
  }

  lemma LeastOf(s: set<u64>)
    requires s != {}
    ensures exists k :: IsLeast(k, s)
  {
    var k := LeastExists(s);
  }

  ghost function Least(s: set<u64>): (k: u64)
    requires s != {}
    ensures IsLeast(k, s)
  {
    LeastOf(s);
    var k :| IsLeast(k, s);
    k
  }

  ghost function SortedKeys(s: set<u64>): (ks: seq<u64>)
    ensures |ks| == |s|
    ensures forall k :: k in ks <==> k in s
  {
    if s == {} then [] else
      var k := Least(s);
      [k] + SortedKeys(s - {k})
  }

  lemma {:induction false} KeysIncrease(s: set<u64>, i: nat, j: nat)
    requires i < j < |s|
    ensures SortedKeys(s)[i] < SortedKeys(s)[j]
  {
    var k := Least(s);
    var rest := SortedKeys(s - {k});
    SortedKeysUnfold(s, k);
    hide SortedKeys;
    if i == 0 {
      assert rest[j - 1] in rest;
    } else {
      KeysIncrease(s - {k}, i - 1, j - 1);
    }
  }

  lemma SortedKeysUnfold(s: set<u64>, k: u64)
    requires IsLeast(k, s)
    ensures SortedKeys(s) == [k] + SortedKeys(s - {k})
  {
    assert k == Least(s);
  }

  /** The values under a list of keys. */
  function ValuesAt<V>(m: map<u64, V>, ks: seq<u64>): (vs: seq<V>)
    requires forall k :: k in ks ==> k in m
    ensures |vs| == |ks|
    ensures forall i :: 0 <= i < |ks| ==> vs[i] == m[ks[i]]
  {
    seq(|ks|, i requires 0 <= i < |ks| => m[ks[i]])
  }

  ghost function Entries<V>(m: map<u64, V>): (vs: seq<V>)
    ensures |vs| == |m|
  {
    assert |m.Keys| == |m|;
    ValuesAt(m, SortedKeys(m.Keys))
  }

  lemma EntriesAt<V>(m: map<u64, V>)
    ensures var ks := SortedKeys(m.Keys);
            |Entries(m)| == |ks| && forall i :: 0 <= i < |ks| ==> ks[i] in m && Entries(m)[i] == m[ks[i]]
  {
    hide SortedKeys;
  }

  /** Inserting values one after another, each under its own key: the loops that rebuild a map. */
  function InsertAll<V, W>(m: map<u64, W>, vs: seq<V>, key: V -> u64, image: V -> W): map<u64, W>
    decreases |vs|
  {
    if vs == [] then m else InsertAll(m[key(vs[0]) := image(vs[0])], vs[1..], key, image)
  }

  lemma {:induction false} InsertAllUnder<V, W>(m: map<u64, V>, ks: seq<u64>, into: map<u64, W>, key: V -> u64, image: V -> W)
    requires forall k :: k in ks ==> k in m && key(m[k]) == k
    ensures var r := InsertAll(into, ValuesAt(m, ks), key, image);
            && r.Keys == into.Keys + (set k | k in ks)
            && (forall k :: k in ks ==> r[k] == image(m[k]))
            && (forall k :: k in into && k !in ks ==> r[k] == into[k])
    decreases |ks|
  {
    if ks != [] {
      var vs := ValuesAt(m, ks);
      assert vs[0] == m[ks[0]] && ks[0] in ks;
      assert vs[1..] == ValuesAt(m, ks[1..]);
      var next := into[ks[0] := image(m[ks[0]])];
      assert forall k :: k in ks <==> k == ks[0] || k in ks[1..];
      InsertAllUnder(m, ks[1..], next, key, image);
    }
  }

  /** A map whose values know their keys is rebuilt from its entries, value by value. */
  lemma RebuiltFromEntries<V, W>(m: map<u64, V>, key: V -> u64, image: V -> W)
    requires forall k :: k in m ==> key(m[k]) == k
    ensures InsertAll(map[], Entries(m), key, image) == map k | k in m :: image(m[k])
  {
    hide InsertAll;
    hide SortedKeys;
    var ks := SortedKeys(m.Keys);
    var r := InsertAll(map[], ValuesAt(m, ks), key, image);
    InsertAllUnder(m, ks, map[], key, image);
    assert forall k :: k in r <==> k in ks;
    assert forall k :: k in m ==> k in ks && r[k] == image(m[k]);
  }

  lemma Reassociate(a: seq<u64>, k: u64, b: seq<u64>)
    ensures a + ([k] + b) == (a + [k]) + b
  {
  }

  method KeysInOrder(s: set<u64>) returns (ks: seq<u64>)
    ensures ks == SortedKeys(s)
  {
    ks := [];
    var rest := s;
    assert [] + SortedKeys(rest) == SortedKeys(rest);
    assert SortedKeys({}) == [];
    hide SortedKeys;
    while rest != {}
      invariant SortedKeys(s) == ks + SortedKeys(rest)
      decreases |rest|
    {
      LeastOf(rest);
      var k :| k in rest && forall j :: j in rest ==> k <= j;
      SortedKeysUnfold(rest, k);
      Reassociate(ks, k, SortedKeys(rest - {k}));
      ks := ks + [k];
      rest := rest - {k};
    }
    assert ks + [] == ks;
  }
}
