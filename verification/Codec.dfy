/**
 The canonical big-endian writer and the bounded reader of include/recovery_planner/digest.hpp.

 What a writer emits is described by a list of tokens; a reader is described by a cursor whose failure
 is sticky. `Tracks` ties the two: it says which tokens the unread bytes, completed by the bytes that
 a truncation took away, still spell. One set of lemmas about it serves round trips (nothing is
 missing) and the rejection of truncated input (something is missing).
 */
module Codec {
  import opened Integers

  // ---- Big-endian integers --------------------------------------------------------------------

  function Power256(k: nat): nat { if k == 0 then 1 else 256 * Power256(k - 1) }

  /** The low `k` bytes of `v`, most significant first. */
  function BigEndian(v: nat, k: nat): (s: seq<byte>)
    ensures |s| == k
  {
    if k == 0 then [] else BigEndian(v / 256, k - 1) + [v % 256]
  }

  /** The number that a run of bytes denotes: the accumulation `v = (v << 8) | b`. */
  function Number(s: seq<byte>): (v: nat)
    ensures v < Power256(|s|)
  {
    if s == [] then 0 else 256 * Number(s[..|s| - 1]) + s[|s| - 1]
  }

  lemma {:induction false} NumberOfBigEndian(v: nat, k: nat)
    requires v < Power256(k)
    ensures Number(BigEndian(v, k)) == v
  {
    if k > 0 {
      var s := BigEndian(v, k);
      assert s[..k - 1] == BigEndian(v / 256, k - 1);
      NumberOfBigEndian(v / 256, k - 1);
    }
  }

  lemma PushedByte(v: nat, b: byte)
    ensures (256 * v + b) / 256 == v && (256 * v + b) % 256 == b
  {
  }

  lemma {:induction false} BigEndianOfNumber(s: seq<byte>)
    ensures BigEndian(Number(s), |s|) == s
  {
    if s != [] {
      var front, last := s[..|s| - 1], s[|s| - 1];
      BigEndianOfNumber(front);
      PushedByte(Number(front), last);
      assert s == front + [last];
    }
  }

  lemma Powers()
    ensures Power256(1) == TWO_8 && Power256(2) == TWO_16 && Power256(4) == TWO_32 && Power256(8) == TWO_64
  {
    assert Power256(6) == 0x1_0000_0000_0000;
  }

  function U32Bytes(n: u32): seq<byte> { BigEndian(n, 4) }

  function U64Bytes(n: u64): seq<byte> { BigEndian(n, 8) }

  lemma U32IsBytes(s: seq<byte>, v: u32)
    requires |s| == 4
    ensures Number(s) == v <==> s == U32Bytes(v)
  {
    Powers();
    BigEndianOfNumber(s);
    NumberOfBigEndian(v, 4);
  }

  // ---- Tokens ---------------------------------------------------------------------------------

  datatype Token = U8(b: byte) | U32(n: u32) | U64(id: u64) | I64(i: i64) | Str(s: text)

  datatype Tokens = End | Then(head: Token, tail: Tokens)

  const MAX_CSTRING: nat := 4096

  /** What survives of a string that is written through `c_str()`: the bytes before the first NUL. */
  function CutAtNul(s: text): (r: text)
    ensures |r| <= |s| && 0 !in r
    ensures 0 !in s ==> r == s
  {
    if s == [] || s[0] == 0 then [] else [s[0]] + CutAtNul(s[1..])
  }

  predicate ShortString(s: text) { |CutAtNul(s)| <= MAX_CSTRING }

  function TokenBytes(t: Token): seq<byte> {
    match t
    case U8(b) => [b]
    case U32(n) => U32Bytes(n)
    case U64(id) => U64Bytes(id)
    case I64(i) => U64Bytes(ToUnsigned(i))
    case Str(s) => CutAtNul(s) + [0]
  }

  function Encode(ts: Tokens): seq<byte> {
    match ts
    case End => []
    case Then(t, rest) => TokenBytes(t) + Encode(rest)
  }

  function Append(a: Tokens, b: Tokens): Tokens {
    match a
    case End => b
    case Then(t, rest) => Then(t, Append(rest, b))
  }

  lemma {:induction false} EncodeAppend(a: Tokens, b: Tokens)
    ensures Encode(Append(a, b)) == Encode(a) + Encode(b)
  {
    match a
    case End =>
    case Then(t, rest) =>
      EncodeAppend(rest, b);
      assert TokenBytes(t) + (Encode(rest) + Encode(b)) == (TokenBytes(t) + Encode(rest)) + Encode(b);
  }

  // ---- Cursor ---------------------------------------------------------------------------------

  datatype RawCursor = RawCursor(data: seq<byte>, pos: nat, failed: bool) {
    predicate Has(n: nat) { !failed && n <= |data| - pos }

    function Fail(): RawCursor { this.(failed := true) }
  }

  type Cursor = c: RawCursor | c.pos <= |c.data| witness RawCursor([], 0, false)

  /** What one read yields: the value, and the cursor after it. */
  datatype Read<+T> = Read(value: T, at: Cursor)

  /** `next` is a cursor that a sequence of reads may leave behind `c`. */
  predicate Follows(c: Cursor, next: Cursor) {
    && next.data == c.data
    && c.pos <= next.pos
    && (c.failed ==> next.failed && next.pos == c.pos)
  }

  function ReadNumber(c: Cursor, k: nat): (r: Read<nat>)
    ensures Follows(c, r.at)
    ensures r.value < Power256(k)
    ensures !c.Has(k) ==> r.value == 0 && r.at.failed
  {
    if !c.Has(k) then
      ZeroFits(k);
      Read(0, c.Fail())
    else
      Read(Number(c.data[c.pos..c.pos + k]), c.(pos := c.pos + k))
  }

  lemma {:induction k} ZeroFits(k: nat)
    ensures 0 < Power256(k)
  {
  }

  function ReadU8(c: Cursor): (r: Read<byte>)
    ensures Follows(c, r.at)
  {
    Powers();
    var r := ReadNumber(c, 1);
    Read(r.value, r.at)
  }

  function ReadU32(c: Cursor): (r: Read<u32>)
    ensures Follows(c, r.at)
    ensures c.failed ==> r.value == 0
  {
    Powers();
    var r := ReadNumber(c, 4);
    Read(r.value, r.at)
  }

  function ReadU64(c: Cursor): (r: Read<u64>)
    ensures Follows(c, r.at)
  {
    Powers();
    var r := ReadNumber(c, 8);
    Read(r.value, r.at)
  }

  function ReadI64(c: Cursor): (r: Read<i64>)
    ensures Follows(c, r.at)
  {
    var r := ReadU64(c);
    Read(ToSigned(r.value), r.at)
  }

  /** The loop of `ByteReader::cstring`, with the characters read so far. */
  function ReadString(c: Cursor, sofar: text): (r: Read<text>)
    ensures Follows(c, r.at)
    decreases |c.data| - c.pos
  {
    if !c.Has(1) then
      Read(sofar, c.Fail())
    else
      var b := c.data[c.pos];
      var next := c.(pos := c.pos + 1);
      if b == 0 then Read(sofar, next)
      else if |sofar| + 1 > MAX_CSTRING then Read(sofar + [b], next.Fail())
      else ReadString(next, sofar + [b])
  }

  function ReadStr(c: Cursor): (r: Read<text>)
    ensures Follows(c, r.at)
  {
    ReadString(c, [])
  }

  // Runs of equal reads: `n` of them, whether or not the cursor has failed on the way.

  function ReadU64s(c: Cursor, n: nat): (r: Read<seq<u64>>)
    ensures Follows(c, r.at) && |r.value| == n
    decreases n
  {
    if n == 0 then Read([], c)
    else
      var x := ReadU64(c);
      var xs := ReadU64s(x.at, n - 1);
      Read([x.value] + xs.value, xs.at)
  }

  function ReadU8s(c: Cursor, n: nat): (r: Read<seq<byte>>)
    ensures Follows(c, r.at) && |r.value| == n
    decreases n
  {
    if n == 0 then Read([], c)
    else
      var x := ReadU8(c);
      var xs := ReadU8s(x.at, n - 1);
      Read([x.value] + xs.value, xs.at)
  }

  function ReadStrs(c: Cursor, n: nat): (r: Read<seq<text>>)
    ensures Follows(c, r.at) && |r.value| == n
    decreases n
  {
    if n == 0 then Read([], c)
    else
      var x := ReadStr(c);
      var xs := ReadStrs(x.at, n - 1);
      Read([x.value] + xs.value, xs.at)
  }

  // The tokens of such runs, in front of what follows them.

  function U64s(xs: seq<u64>, rest: Tokens): Tokens {
    if xs == [] then rest else Then(U64(xs[0]), U64s(xs[1..], rest))
  }

  function U8s(xs: seq<byte>, rest: Tokens): Tokens {
    if xs == [] then rest else Then(U8(xs[0]), U8s(xs[1..], rest))
  }

  function Strs(xs: seq<text>, rest: Tokens): Tokens {
    if xs == [] then rest else Then(Str(xs[0]), Strs(xs[1..], rest))
  }

  function CutAll(xs: seq<text>): (r: seq<text>)
    ensures |r| == |xs|
  {
    if xs == [] then [] else [CutAtNul(xs[0])] + CutAll(xs[1..])
  }

  predicate AllShort(xs: seq<text>) { xs == [] || (ShortString(xs[0]) && AllShort(xs[1..])) }

  // ---- Reading what was written ---------------------------------------------------------------

  /** The unread bytes, followed by the missing ones, spell `ts`; unless the cursor has failed. */
  ghost predicate Tracks(c: Cursor, ts: Tokens, missing: seq<byte>) {
    c.failed || c.data[c.pos..] + missing == Encode(ts)
  }

  /**
   After a read of something that `readable` says the reader accepts: what follows is tracked, the value
   is right unless the read failed, and with nothing missing it fails only because it is not readable.
   */
  ghost predicate Reads<T(!new)>(c: Cursor, r: Read<T>, expected: T, readable: bool, rest: Tokens, missing: seq<byte>) {
    && Tracks(r.at, rest, missing)
    && (!r.at.failed ==> r.value == expected)
    && (missing == [] ==> r.at.failed == (c.failed || !readable))
  }

  ghost predicate Took<T(!new)>(c: Cursor, r: Read<T>, expected: T, rest: Tokens, missing: seq<byte>) {
    Reads(c, r, expected, true, rest, missing)
  }

  lemma ReadEnough(c: Cursor, k: nat)
    requires c.Has(k)
    ensures var r := ReadNumber(c, k);
            && r.value == Number(c.data[c.pos..][..k])
            && !r.at.failed && r.at.data[r.at.pos..] == c.data[c.pos..][k..]
  {
    hide Number;
    assert c.data[c.pos..][..k] == c.data[c.pos..c.pos + k];
  }

  lemma NumberTaken(c: Cursor, v: nat, k: nat, t: Token, rest: Tokens, missing: seq<byte>)
    requires v < Power256(k) && TokenBytes(t) == BigEndian(v, k)
    requires Tracks(c, Then(t, rest), missing)
    ensures Took(c, ReadNumber(c, k), v, rest, missing)
  {
    NumberOfBigEndian(v, k);
    var unread, bs, tail := c.data[c.pos..], BigEndian(v, k), Encode(rest);
    assert Encode(Then(t, rest)) == bs + tail;
    hide Number;
    hide Power256;
    hide BigEndian;
    hide Encode;
    hide TokenBytes;
    hide ReadNumber;
    if c.Has(k) {
      ReadEnough(c, k);
      FrontSplits(unread, missing, bs, tail);
    } else if !c.failed {
      assert |unread + missing| == |bs + tail|;
    }
  }

  lemma FrontSplits(unread: seq<byte>, missing: seq<byte>, front: seq<byte>, back: seq<byte>)
    requires unread + missing == front + back && |front| <= |unread|
    ensures unread[..|front|] == front && unread[|front|..] + missing == back
  {
    var all := unread + missing;
    assert all[..|front|] == unread[..|front|] && all[..|front|] == front;
    assert all[|front|..] == unread[|front|..] + missing && all[|front|..] == back;
  }

  lemma U8Taken(c: Cursor, b: byte, rest: Tokens, missing: seq<byte>)
    requires Tracks(c, Then(U8(b), rest), missing)
    ensures Took(c, ReadU8(c), b, rest, missing)
  {
    Powers();
    assert BigEndian(b, 1) == [b];
    NumberTaken(c, b, 1, U8(b), rest, missing);
  }

  lemma U32Taken(c: Cursor, n: u32, rest: Tokens, missing: seq<byte>)
    requires Tracks(c, Then(U32(n), rest), missing)
    ensures Took(c, ReadU32(c), n, rest, missing)
  {
    Powers();
    NumberTaken(c, n, 4, U32(n), rest, missing);
  }

  lemma U64Taken(c: Cursor, n: u64, rest: Tokens, missing: seq<byte>)
    requires Tracks(c, Then(U64(n), rest), missing)
    ensures Took(c, ReadU64(c), n, rest, missing)
  {
    Powers();
    NumberTaken(c, n, 8, U64(n), rest, missing);
  }

  lemma I64Taken(c: Cursor, n: i64, rest: Tokens, missing: seq<byte>)
    requires Tracks(c, Then(I64(n), rest), missing)
    ensures Took(c, ReadI64(c), n, rest, missing)
  {
    Powers();
    NumberTaken(c, ToUnsigned(n), 8, I64(n), rest, missing);
  }

  lemma {:induction false} CharactersTaken(c: Cursor, sofar: text, s: text, rest: seq<byte>, missing: seq<byte>)
    requires |sofar| <= MAX_CSTRING && 0 !in s
    requires !c.failed && c.data[c.pos..] + missing == s + [0] + rest
    ensures var r := ReadString(c, sofar);
            && (!r.at.failed ==> r.value == sofar + s && c.data[r.at.pos..] + missing == rest)
            && (missing == [] ==> (r.at.failed <==> |sofar + s| > MAX_CSTRING))
    decreases |s|
  {
    var all := s + [0] + rest;
    if !c.Has(1) {
      assert missing != [] by { assert |all| > 0; }
    } else {
      assert c.data[c.pos] == (c.data[c.pos..] + missing)[0] == all[0];
      var next := c.(pos := c.pos + 1);
      assert c.data[next.pos..] + missing == (c.data[c.pos..] + missing)[1..] == all[1..];
      if s == [] {
        assert all[1..] == rest && sofar + s == sofar;
      } else {
        assert all[0] == s[0] && s[0] in s;
        assert all[1..] == s[1..] + [0] + rest;
        assert sofar + s == (sofar + [s[0]]) + s[1..];
        if |sofar| + 1 <= MAX_CSTRING {
          CharactersTaken(next, sofar + [s[0]], s[1..], rest, missing);
        }
      }
    }
  }

  /** A string comes back cut at its first NUL; it fails exactly when what is left of it is too long. */
  lemma StrTaken(c: Cursor, s: text, rest: Tokens, missing: seq<byte>)
    requires Tracks(c, Then(Str(s), rest), missing)
    ensures Reads(c, ReadStr(c), CutAtNul(s), ShortString(s), rest, missing)
  {
    if !c.failed {
      assert [] + CutAtNul(s) == CutAtNul(s);
      CharactersTaken(c, [], CutAtNul(s), Encode(rest), missing);
    }
  }

  lemma {:induction false} U64sTaken(c: Cursor, xs: seq<u64>, rest: Tokens, missing: seq<byte>)
    requires Tracks(c, U64s(xs, rest), missing)
    ensures Took(c, ReadU64s(c, |xs|), xs, rest, missing)
    decreases xs
  {
    if xs != [] {
      U64Taken(c, xs[0], U64s(xs[1..], rest), missing);
      U64sTaken(ReadU64(c).at, xs[1..], rest, missing);
      assert xs == [xs[0]] + xs[1..];
    }
  }

  lemma {:induction false} U8sTaken(c: Cursor, xs: seq<byte>, rest: Tokens, missing: seq<byte>)
    requires Tracks(c, U8s(xs, rest), missing)
    ensures Took(c, ReadU8s(c, |xs|), xs, rest, missing)
    decreases xs
  {
    if xs != [] {
      U8Taken(c, xs[0], U8s(xs[1..], rest), missing);
      U8sTaken(ReadU8(c).at, xs[1..], rest, missing);
      assert xs == [xs[0]] + xs[1..];
    }
  }

  lemma {:induction false} StrsTaken(c: Cursor, xs: seq<text>, rest: Tokens, missing: seq<byte>)
    requires Tracks(c, Strs(xs, rest), missing)
    ensures Reads(c, ReadStrs(c, |xs|), CutAll(xs), AllShort(xs), rest, missing)
    decreases xs
  {
    hide Tracks;
    hide ShortString;
    if xs != [] {
      StrTaken(c, xs[0], Strs(xs[1..], rest), missing);
      StrsTaken(ReadStr(c).at, xs[1..], rest, missing);
    }
  }
}
