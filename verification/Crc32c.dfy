/**
 CRC-32C (Castagnoli, section 12.1 of RFC 3720 and Appendix A of RFC 9260): the table-driven loop
 of src/digest.cpp against bit-serial reflected division, and the errors it is certain to detect.

 Facts about single machine words are small lemmas of their own; the inductive lemmas hide the word
 operations and use only those facts.
 */
module Crc32c {
  import opened Integers

  /** The reflected Castagnoli polynomial. */
  const POLYNOMIAL: bv32 := 0x82F63B78

  function Xor(a: bv32, b: bv32): bv32 { a ^ b }

  function Not(a: bv32): bv32 { !a }

  function Bit(b: bool): bv32 { if b then 1 else 0 }

  // ---- Reference: division one message bit at a time -------------------------------------------

  /** Shift the division register right; subtract the polynomial when a one falls out. */
  function Shift(s: bv32): bv32 {
    if s & 1 == 1 then POLYNOMIAL ^ (s >> 1) else s >> 1
  }

  function ShiftN(s: bv32, n: nat): bv32
    decreases n
  {
    if n == 0 then s else ShiftN(Shift(s), n - 1)
  }

  /** One message bit enters the register. */
  function Feed(s: bv32, b: bool): bv32 { Shift(Xor(s, Bit(b))) }

  /** The register after the bits of a message have entered it. */
  function Divide(s: bv32, bits: seq<bool>): bv32
    decreases bits
  {
    if bits == [] then s else Divide(Feed(s, bits[0]), bits[1..])
  }

  /** The low `n` bits of a number, least significant first: the reflected bit order. */
  function BitsOf(v: nat, n: nat): (r: seq<bool>)
    ensures |r| == n
  {
    if n == 0 then [] else [v % 2 == 1] + BitsOf(v / 2, n - 1)
  }

  function MessageBits(data: seq<byte>): (r: seq<bool>)
    ensures |r| == 8 * |data|
  {
    if data == [] then [] else BitsOf(data[0], 8) + MessageBits(data[1..])
  }

  /** The checksum by definition: complement the seed, divide all message bits, complement. */
  function Checksum(data: seq<byte>, seed: bv32): bv32 {
    Not(Divide(Not(seed), MessageBits(data)))
  }

  // ---- Words ----------------------------------------------------------------------------------

  /** A bit put below a word. */
  function Push(b: bool, v: bv32): bv32 { Bit(b) | (v << 1) }

  /** `v` has no bit outside the mask `m`. */
  predicate Within(v: bv32, m: bv32) { v & !m == 0 }

  predicate TopClear(v: bv32) { v & 0x8000_0000 == 0 }

  function Widen(m: bv32): bv32 { (m << 1) | 1 }

  lemma XorShift(a: bv32, b: bv32)
    ensures (a ^ b) >> 1 == (a >> 1) ^ (b >> 1)
    ensures (a ^ b) & 1 == 1 <==> ((a & 1 == 1) != (b & 1 == 1))
  {
  }

  lemma XorRegroups(p: bv32, x: bv32, y: bv32)
    ensures (p ^ x) ^ (p ^ y) == x ^ y
    ensures (p ^ x) ^ y == p ^ (x ^ y) && x ^ (p ^ y) == p ^ (x ^ y)
  {
  }

  lemma ShiftDistributes(a: bv32, b: bv32)
    ensures Shift(a ^ b) == Shift(a) ^ Shift(b)
  {
    XorShift(a, b);
    XorRegroups(POLYNOMIAL, a >> 1, b >> 1);
  }

  lemma ShiftIsLinear(a: bv32, b: bv32)
    ensures Shift(Xor(a, b)) == Xor(Shift(a), Shift(b))
  {
    hide Shift;
    ShiftDistributes(a, b);
  }

  lemma ShiftIsInjective(a: bv32, b: bv32)
    requires Shift(a) == Shift(b)
    ensures a == b
  {
  }

  lemma XorCancels(d: bv32, s: bv32, t: bv32)
    requires Xor(s, d) == Xor(t, d) || Xor(d, s) == Xor(d, t)
    ensures s == t
  {
  }

  lemma XorZero(s: bv32)
    ensures Xor(s, 0) == s
  {
  }

  lemma FeedIsInjective(s: bv32, t: bv32, b: bool)
    requires Feed(s, b) == Feed(t, b)
    ensures s == t
  {
    hide Shift;
    hide Xor;
    hide Bit;
    ShiftIsInjective(Xor(s, Bit(b)), Xor(t, Bit(b)));
    XorCancels(Bit(b), s, t);
  }

  lemma ShiftUndoesDouble(v: bv32)
    requires v & 0x8000_0000 == 0
    ensures Shift(v << 1) == v
  {
  }

  lemma PushIsXor(s: bv32, b: bv32, v: bv32)
    requires b <= 1
    ensures s ^ (b | (v << 1)) == (s ^ b) ^ (v << 1)
  {
  }

  lemma XorPush(s: bv32, b: bool, v: bv32)
    ensures Xor(s, Push(b, v)) == Xor(Xor(s, Bit(b)), v << 1)
  {
    if b {
      PushIsXor(s, 1, v);
    } else {
      PushIsXor(s, 0, v);
    }
  }

  /** Feeding a bit and then xor-ing a word is shifting with the bit pushed below the word. */
  lemma FeedAbsorbs(s: bv32, b: bool, v: bv32)
    requires TopClear(v)
    ensures Xor(Feed(s, b), v) == Shift(Xor(s, Push(b, v)))
  {
    ShiftUndoesDouble(v);
    hide Shift;
    hide Xor;
    hide Bit;
    hide Push;
    XorPush(s, b, v);
    ShiftIsLinear(Xor(s, Bit(b)), v << 1);
  }

  lemma PushPops(b: bv32, v: bv32)
    requires b <= 1 && v & 0x8000_0000 == 0
    ensures (b | (v << 1)) & 1 == b && (b | (v << 1)) >> 1 == v
  {
  }

  lemma PushIsInjective(b: bool, v: bv32, c: bool, w: bv32)
    requires TopClear(v) && TopClear(w) && Push(b, v) == Push(c, w)
    ensures b == c && v == w
  {
    PushPops(Bit(b), v);
    PushPops(Bit(c), w);
  }

  lemma PushKeepsMask(b: bv32, v: bv32, m: bv32)
    requires b <= 1 && v & !m == 0
    ensures (b | (v << 1)) & !((m << 1) | 1) == 0
  {
  }

  lemma PushStaysWithin(b: bool, v: bv32, m: bv32)
    requires Within(v, m)
    ensures Within(Push(b, v), Widen(m))
  {
    if b {
      PushKeepsMask(1, v, m);
    } else {
      PushKeepsMask(0, v, m);
    }
  }

  lemma WidenIsMonotone(v: bv32, m: bv32)
    requires Within(v, m)
    ensures Within(Widen(v), Widen(m))
  {
  }

  lemma WithinIsTransitive(v: bv32, m: bv32, k: bv32)
    requires Within(v, m) && Within(m, k)
    ensures Within(v, k)
  {
  }

  lemma WithinClear(v: bv32, m: bv32)
    requires Within(v, m) && TopClear(m)
    ensures TopClear(v)
  {
  }

  lemma NotCancels(s: bv32, t: bv32)
    ensures Not(s) == Not(t) ==> s == t
    ensures Not(Not(s)) == s
  {
  }

  // ---- The register as a linear map -----------------------------------------------------------

  lemma {:induction false} ShiftNIsLinear(a: bv32, b: bv32, n: nat)
    ensures ShiftN(Xor(a, b), n) == Xor(ShiftN(a, n), ShiftN(b, n))
    decreases n
  {
    hide Shift;
    hide Xor;
    if n > 0 {
      ShiftIsLinear(a, b);
      ShiftNIsLinear(Shift(a), Shift(b), n - 1);
    }
  }

  lemma {:induction false} ShiftNIsInjective(a: bv32, b: bv32, n: nat)
    requires ShiftN(a, n) == ShiftN(b, n)
    ensures a == b
    decreases n
  {
    hide Shift;
    if n > 0 {
      ShiftNIsInjective(Shift(a), Shift(b), n - 1);
      ShiftIsInjective(a, b);
    }
  }

  // ---- At most 32 message bits are one word xor-ed into the register ---------------------------

  function WordOf(bits: seq<bool>): bv32 {
    if bits == [] then 0 else Push(bits[0], WordOf(bits[1..]))
  }

  function LowMask(n: nat): bv32 {
    if n == 0 then 0 else Widen(LowMask(n - 1))
  }

  lemma LowMask31()
    ensures TopClear(LowMask(31))
  {
    assert LowMask(4) == 0xF;
    assert LowMask(8) == 0xFF;
    assert LowMask(12) == 0xFFF;
    assert LowMask(16) == 0xFFFF;
    assert LowMask(20) == 0xF_FFFF;
    assert LowMask(24) == 0xFF_FFFF;
    assert LowMask(28) == 0xFFF_FFFF;
    assert LowMask(31) == 0x7FFF_FFFF;
  }

  lemma EmptyWithin(m: bv32)
    ensures Within(0, m)
  {
  }

  lemma {:induction false} LowMaskIsMonotone(n: nat, k: nat)
    requires n <= k
    ensures Within(LowMask(n), LowMask(k))
    decreases n
  {
    hide Within;
    hide Widen;
    if n == 0 {
      EmptyWithin(LowMask(k));
    } else {
      LowMaskIsMonotone(n - 1, k - 1);
      WidenIsMonotone(LowMask(n - 1), LowMask(k - 1));
    }
  }

  lemma {:induction false} WordFits(bits: seq<bool>)
    ensures Within(WordOf(bits), LowMask(|bits|))
    ensures |bits| <= 31 ==> TopClear(WordOf(bits))
  {
    hide Within;
    hide Widen;
    hide Push;
    hide TopClear;
    if bits == [] {
      EmptyWithin(LowMask(0));
    } else {
      WordFits(bits[1..]);
      PushStaysWithin(bits[0], WordOf(bits[1..]), LowMask(|bits| - 1));
    }
    if |bits| <= 31 {
      LowMask31();
      LowMaskIsMonotone(|bits|, 31);
      WithinIsTransitive(WordOf(bits), LowMask(|bits|), LowMask(31));
      WithinClear(WordOf(bits), LowMask(31));
    }
  }

  lemma {:induction false} DivideIsShiftN(s: bv32, bits: seq<bool>)
    requires |bits| <= 32
    ensures Divide(s, bits) == ShiftN(Xor(s, WordOf(bits)), |bits|)
    decreases bits
  {
    hide Shift;
    hide Xor;
    hide Feed;
    hide Push;
    hide TopClear;
    if bits == [] {
      XorZero(s);
    } else {
      WordFits(bits[1..]);
      DivideIsShiftN(Feed(s, bits[0]), bits[1..]);
      FeedAbsorbs(s, bits[0], WordOf(bits[1..]));
    }
  }

  lemma {:induction false} WordIsInjective(x: seq<bool>, y: seq<bool>)
    requires |x| == |y| <= 32 && WordOf(x) == WordOf(y)
    ensures x == y
  {
    hide Push;
    hide TopClear;
    if x != [] {
      WordFits(x[1..]);
      WordFits(y[1..]);
      PushIsInjective(x[0], WordOf(x[1..]), y[0], WordOf(y[1..]));
      WordIsInjective(x[1..], y[1..]);
      assert x == [x[0]] + x[1..] && y == [y[0]] + y[1..];
    }
  }

  // ---- Burst errors ---------------------------------------------------------------------------

  lemma {:induction false} DivideConcat(s: bv32, a: seq<bool>, b: seq<bool>)
    ensures Divide(s, a + b) == Divide(Divide(s, a), b)
    decreases a
  {
    hide Feed;
    if a == [] {
      assert a + b == b;
    } else {
      assert (a + b)[1..] == a[1..] + b;
      DivideConcat(Feed(s, a[0]), a[1..], b);
    }
  }

  /** For a fixed message the final register determines the initial one. */
  lemma {:induction false} DivideIsInjectiveInState(s: bv32, t: bv32, bits: seq<bool>)
    requires Divide(s, bits) == Divide(t, bits)
    ensures s == t
    decreases bits
  {
    hide Feed;
    if bits != [] {
      DivideIsInjectiveInState(Feed(s, bits[0]), Feed(t, bits[0]), bits[1..]);
      FeedIsInjective(s, t, bits[0]);
    }
  }

  /** Two messages that agree outside one window of at most 32 bits leave different registers. */
  lemma BurstChangesRegister(s: bv32, before: seq<bool>, x: seq<bool>, y: seq<bool>, after: seq<bool>)
    requires |x| == |y| <= 32 && x != y
    ensures Divide(s, before + x + after) != Divide(s, before + y + after)
  {
    hide Divide;
    hide ShiftN;
    hide WordOf;
    hide Xor;
    DivideConcat(s, before + x, after);
    DivideConcat(s, before + y, after);
    DivideConcat(s, before, x);
    DivideConcat(s, before, y);
    var t := Divide(s, before);
    if Divide(Divide(t, x), after) == Divide(Divide(t, y), after) {
      DivideIsInjectiveInState(Divide(t, x), Divide(t, y), after);
      DivideIsShiftN(t, x);
      DivideIsShiftN(t, y);
      ShiftNIsInjective(Xor(t, WordOf(x)), Xor(t, WordOf(y)), |x|);
      XorCancels(t, WordOf(x), WordOf(y));
      WordIsInjective(x, y);
      assert false;
    }
  }

  lemma {:induction false} MessageBitsConcat(a: seq<byte>, b: seq<byte>)
    ensures MessageBits(a + b) == MessageBits(a) + MessageBits(b)
  {
    if a == [] {
      assert a + b == b;
    } else {
      assert (a + b)[1..] == a[1..] + b;
      MessageBitsConcat(a[1..], b);
    }
  }

  lemma {:induction false} BitsOfIsInjective(v: nat, w: nat, n: nat)
    requires BitsOf(v, n) == BitsOf(w, n)
    requires v < Power2(n) && w < Power2(n)
    ensures v == w
  {
    if n > 0 {
      assert BitsOf(v, n)[0] == BitsOf(w, n)[0];
      assert BitsOf(v, n)[1..] == BitsOf(v / 2, n - 1);
      assert BitsOf(w, n)[1..] == BitsOf(w / 2, n - 1);
      BitsOfIsInjective(v / 2, w / 2, n - 1);
    }
  }

  lemma Power2Of8()
    ensures Power2(8) == 0x100
  {
    assert Power2(4) == 16;
  }

  function Power2(n: nat): nat { if n == 0 then 1 else 2 * Power2(n - 1) }

  lemma {:induction false} MessageBitsAreInjective(x: seq<byte>, y: seq<byte>)
    requires |x| == |y| && MessageBits(x) == MessageBits(y)
    ensures x == y
  {
    if x != [] {
      var p, q := MessageBits(x), MessageBits(y);
      assert p[..8] == BitsOf(x[0], 8) && p[8..] == MessageBits(x[1..]);
      assert q[..8] == BitsOf(y[0], 8) && q[8..] == MessageBits(y[1..]);
      Power2Of8();
      BitsOfIsInjective(x[0], y[0], 8);
      MessageBitsAreInjective(x[1..], y[1..]);
      assert x == [x[0]] + x[1..] && y == [y[0]] + y[1..];
    }
  }

  /**
   Every change of a message that lies within 32 consecutive bits (they need not start on a byte)
   changes the checksum, for messages of any length and every seed.
   */
  lemma DetectsBitBurst(p: seq<byte>, q: seq<byte>, start: nat, width: nat, seed: bv32)
    requires |p| == |q| && p != q
    requires width <= 32 && start + width <= 8 * |p|
    requires forall k :: 0 <= k < 8 * |p| && !(start <= k < start + width) ==> MessageBits(p)[k] == MessageBits(q)[k]
    ensures Checksum(p, seed) != Checksum(q, seed)
  {
    hide Divide;
    hide MessageBits;
    hide Not;
    hide BitsOf;
    var b, c := MessageBits(p), MessageBits(q);
    var before, x, y, after := SplitWindow(b, c, start, width);
    if x == y {
      MessageBitsAreInjective(p, q);
      assert false;
    }
    BurstChangesRegister(Not(seed), before, x, y, after);
    NotCancels(Divide(Not(seed), b), Divide(Not(seed), c));
  }

  lemma SplitWindow(b: seq<bool>, c: seq<bool>, start: nat, width: nat)
    returns (before: seq<bool>, x: seq<bool>, y: seq<bool>, after: seq<bool>)
    requires |b| == |c| && start + width <= |b|
    requires forall k :: 0 <= k < |b| && !(start <= k < start + width) ==> b[k] == c[k]
    ensures b == before + x + after && c == before + y + after && |x| == |y| == width
  {
    before, after := b[..start], b[start + width..];
    x, y := b[start..start + width], c[start..start + width];
    assert before == c[..start] && after == c[start + width..];
  }

  /** Every change confined to at most four consecutive bytes changes the checksum. */
  lemma DetectsByteBurst(before: seq<byte>, x: seq<byte>, y: seq<byte>, after: seq<byte>, seed: bv32)
    requires |x| == |y| <= 4 && x != y
    ensures Checksum(before + x + after, seed) != Checksum(before + y + after, seed)
  {
    hide Divide;
    hide MessageBits;
    hide Not;
    MessageBitsConcat(before + x, after);
    MessageBitsConcat(before + y, after);
    MessageBitsConcat(before, x);
    MessageBitsConcat(before, y);
    if MessageBits(x) == MessageBits(y) {
      MessageBitsAreInjective(x, y);
      assert false;
    }
    BurstChangesRegister(Not(seed), MessageBits(before), MessageBits(x), MessageBits(y), MessageBits(after));
    NotCancels(Divide(Not(seed), MessageBits(before + x + after)), Divide(Not(seed), MessageBits(before + y + after)));
  }

  /** Seed chaining: a checksum continues from the checksum of what came before. */
  lemma ChecksumConcat(a: seq<byte>, b: seq<byte>, seed: bv32)
    ensures Checksum(a + b, seed) == Checksum(b, Checksum(a, seed))
  {
    hide Divide;
    hide MessageBits;
    hide Not;
    MessageBitsConcat(a, b);
    DivideConcat(Not(seed), MessageBits(a), MessageBits(b));
    NotCancels(Divide(Not(seed), MessageBits(a)), 0);
  }

  // ---- The table-driven loop ------------------------------------------------------------------

  lemma LowBitOfInt(v: nat)
    requires v < 0x100
    ensures (v as bv32) & 1 == Bit(v % 2 == 1)
  {
  }

  lemma HalfOfInt(v: nat)
    requires v < 0x100
    ensures (v as bv32) >> 1 == (v / 2) as bv32
  {
  }

  lemma SplitLowBit(v: bv32)
    ensures v == (v & 1) | ((v >> 1) << 1)
  {
  }

  /** The integer value of a byte, as a 32-bit word, is the word of its bits. */
  lemma {:induction false} ByteIsWord(v: nat, n: nat)
    requires n <= 8 && v < Power2(n) <= 0x100
    ensures v as bv32 == WordOf(BitsOf(v, n))
  {
    if n > 0 {
      LowBitOfInt(v);
      HalfOfInt(v);
      SplitLowBit(v as bv32);
      assert BitsOf(v, n)[1..] == BitsOf(v / 2, n - 1);
      ByteIsWord(v / 2, n - 1);
    }
  }

  lemma SplitLowByte(s: bv32, d: bv32)
    requires d & 0xFFFF_FF00 == 0
    ensures Xor(s, d) == Xor((s ^ d) & 0xFF, (s >> 8) << 8)
    ensures (s >> 8) & 0xFF00_0000 == 0
  {
  }

  function Shift8(s: bv32): bv32 {
    Shift(Shift(Shift(Shift(Shift(Shift(Shift(Shift(s))))))))
  }

  lemma ShiftNIsShift8(s: bv32)
    ensures ShiftN(s, 8) == Shift8(s)
  {
    hide Shift;
    assert ShiftN(s, 8) == ShiftN(Shift(Shift(s)), 6);
    assert ShiftN(s, 8) == ShiftN(Shift(Shift(Shift(Shift(s)))), 4);
    assert ShiftN(s, 8) == ShiftN(Shift(Shift(Shift(Shift(Shift(Shift(s)))))), 2);
  }

  lemma Shift8UndoesByte(v: bv32)
    requires v & 0xFF00_0000 == 0
    ensures Shift8(v << 8) == v
  {
  }

  lemma ShiftNUndoesByte(v: bv32)
    requires v & 0xFF00_0000 == 0
    ensures ShiftN(v << 8, 8) == v
  {
    hide Shift8;
    hide ShiftN;
    Shift8UndoesByte(v);
    ShiftNIsShift8(v << 8);
  }

  lemma ByteWordIsSmall(b: byte)
    ensures (b as bv32) & 0xFFFF_FF00 == 0
  {
    assert b as bv32 < 0x100;
    BelowByte(b as bv32);
  }

  lemma BelowByte(v: bv32)
    requires v < 0x100
    ensures v & 0xFFFF_FF00 == 0
  {
  }

  /** The table index of a step, and one step of the table loop. */
  function Index(s: bv32, b: byte): bv32 { (s ^ (b as bv32)) & 0xFF }

  function TableStep(s: bv32, b: byte): bv32 { Xor(ShiftN(Index(s, b), 8), s >> 8) }

  lemma SplitIndex(s: bv32, b: byte)
    ensures Xor(s, b as bv32) == Xor(Index(s, b), (s >> 8) << 8)
    ensures (s >> 8) & 0xFF00_0000 == 0
  {
    hide Xor;
    ByteWordIsSmall(b);
    SplitLowByte(s, b as bv32);
  }

  lemma TableStepIsShiftN(s: bv32, b: byte)
    ensures TableStep(s, b) == ShiftN(Xor(s, b as bv32), 8)
  {
    hide ShiftN;
    hide Xor;
    hide Index;
    SplitIndex(s, b);
    ShiftNIsLinear(Index(s, b), (s >> 8) << 8, 8);
    ShiftNUndoesByte(s >> 8);
  }

  /** One step of the table loop is eight steps of the division register. */
  lemma TableStepDividesOneByte(s: bv32, b: byte)
    ensures TableStep(s, b) == Divide(s, BitsOf(b, 8))
  {
    hide TableStep;
    hide Xor;
    hide ShiftN;
    hide Divide;
    hide WordOf;
    hide BitsOf;
    TableStepIsShiftN(s, b);
    Power2Of8();
    ByteIsWord(b, 8);
    DivideIsShiftN(s, BitsOf(b, 8));
  }

  lemma IntOfWord(v: bv32)
    ensures (v as int) as bv32 == v
  {
  }

  lemma MaskedIndex(v: bv32)
    ensures (v & 0xFF) as int < 256
  {
  }

  predicate IsTable(table: seq<bv32>) {
    |table| == 256 && forall i :: 0 <= i < 256 ==> table[i] == ShiftN(i as bv32, 8)
  }

  lemma TableLookup(table: seq<bv32>, s: bv32, b: byte)
    requires IsTable(table)
    ensures Index(s, b) as int < 256
    ensures table[Index(s, b) as int] ^ (s >> 8) == TableStep(s, b)
  {
    hide ShiftN;
    MaskedIndex(s ^ (b as bv32));
    hide Index;
    IntOfWord(Index(s, b));
  }

  lemma {:induction false} ShiftNAppend(s: bv32, n: nat)
    ensures Shift(ShiftN(s, n)) == ShiftN(s, n + 1)
    decreases n
  {
    if n > 0 {
      ShiftNAppend(Shift(s), n - 1);
    }
  }

  method BuildTable() returns (table: array<bv32>)
    ensures fresh(table) && IsTable(table[..])
  {
    hide ShiftN;
    table := new bv32[256];
    var i := 0;
    while i < 256
      invariant 0 <= i <= 256
      invariant forall j :: 0 <= j < i ==> table[j] == ShiftN(j as bv32, 8)
    {
      table[i] := TableEntry(i);
      i := i + 1;
    }
  }

  /** The inner loop of the table: eight conditional shifts of the index. */
  method TableEntry(i: nat) returns (crc: bv32)
    requires i < 256
    ensures crc == ShiftN(i as bv32, 8)
  {
    crc := i as bv32;
    var k := 0;
    while k < 8
      invariant 0 <= k <= 8
      invariant crc == ShiftN(i as bv32, k)
    {
      ShiftNAppend(i as bv32, k);
      crc := if crc & 1 == 1 then POLYNOMIAL ^ (crc >> 1) else crc >> 1;
      k := k + 1;
    }
  }

  lemma DivideOneMore(s: bv32, data: seq<byte>, i: nat)
    requires i < |data|
    ensures Divide(s, MessageBits(data[..i + 1])) == TableStep(Divide(s, MessageBits(data[..i])), data[i])
  {
    hide TableStep;
    hide Divide;
    assert data[..i + 1] == data[..i] + [data[i]];
    MessageBitsConcat(data[..i], [data[i]]);
    MessageBitsOfOne(data[i]);
    DivideConcat(s, MessageBits(data[..i]), BitsOf(data[i], 8));
    TableStepDividesOneByte(Divide(s, MessageBits(data[..i])), data[i]);
  }

  /** The loop of the original: one table lookup per byte. It computes the checksum by definition. */
  method Crc32c(data: seq<byte>, seed: bv32) returns (crc: bv32)
    ensures crc == Checksum(data, seed)
  {
    hide TableStep;
    hide Index;
    hide ShiftN;
    hide Not;
    assert data[..0] == [] && Divide(Not(seed), []) == Not(seed);
    hide Divide;
    var table := BuildTable();
    crc := Not(seed);
    var i := 0;
    while i < |data|
      invariant 0 <= i <= |data|
      invariant IsTable(table[..])
      invariant crc == Divide(Not(seed), MessageBits(data[..i]))
    {
      DivideOneMore(Not(seed), data, i);
      TableLookup(table[..], crc, data[i]);
      crc := table[Index(crc, data[i]) as int] ^ (crc >> 8);
      i := i + 1;
    }
    assert data[..i] == data;
    crc := Not(crc);
  }

  lemma MessageBitsOfOne(b: byte)
    ensures MessageBits([b]) == BitsOf(b, 8)
  {
    assert MessageBits([b]) == BitsOf(b, 8) + MessageBits([]);
  }
}
