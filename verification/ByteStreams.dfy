/** The writer and reader objects of include/recovery_planner/digest.hpp, against module Codec. */
module ByteStreams {
  import opened Integers
  import opened Codec

  /** `v >> (8 * i)`. */
  function ShiftRight(v: nat, i: nat): nat {
    if i == 0 then v else ShiftRight(v, i - 1) / 256
  }

  lemma {:induction false} CutIsPrefix(s: text, i: nat)
    requires i <= |s| && 0 !in s[..i] && (i < |s| ==> s[i] == 0)
    ensures CutAtNul(s) == s[..i]
  {
    if i > 0 {
      assert s[0] in s[..i];
      assert s[1..][..i - 1] == s[..i][1..];
      CutIsPrefix(s[1..], i - 1);
    }
  }

  class ByteWriter {
    var buf: seq<byte>

    constructor ()
      ensures buf == []
    {
      buf := [];
    }

    method PutU8(v: byte)
      modifies this
      ensures buf == old(buf) + TokenBytes(U8(v))
    {
      buf := buf + [v];
    }

    /** The loops of `u32` and `u64`: shift right by `8 * i` and push the low byte. */
    method PutNumber(v: nat, k: nat)
      modifies this
      ensures buf == old(buf) + BigEndian(v, k)
    {
      var i := k;
      while i > 0
        invariant 0 <= i <= k
        invariant buf == old(buf) + BigEndian(ShiftRight(v, i), k - i)
      {
        i := i - 1;
        buf := buf + [ShiftRight(v, i) % 256];
      }
    }

    method PutU32(v: u32)
      modifies this
      ensures buf == old(buf) + TokenBytes(U32(v))
    {
      PutNumber(v, 4);
    }

    method PutU64(v: u64)
      modifies this
      ensures buf == old(buf) + TokenBytes(U64(v))
    {
      PutNumber(v, 8);
    }

    method PutI64(v: i64)
      modifies this
      ensures buf == old(buf) + TokenBytes(I64(v))
    {
      PutU64(ToUnsigned(v));
    }

    /** Characters up to the first NUL, then a NUL. */
    method PutString(s: text)
      modifies this
      ensures buf == old(buf) + TokenBytes(Str(s))
    {
      var i := 0;
      while i < |s| && s[i] != 0
        invariant 0 <= i <= |s|
        invariant 0 !in s[..i]
        invariant buf == old(buf) + s[..i]
      {
        buf := buf + [s[i]];
        assert s[..i + 1] == s[..i] + [s[i]];
        i := i + 1;
      }
      CutIsPrefix(s, i);
      buf := buf + [0];
      assert buf == old(buf) + (s[..i] + [0]);
    }
  }

  class ByteReader {
    const data: seq<byte>
    var pos: nat
    var failed: bool

    ghost predicate Valid()
      reads this
    {
      pos <= |data|
    }

    /** The abstract value of the reader. */
    ghost function At(): (c: Cursor)
      requires Valid()
      reads this
    {
      RawCursor(data, pos, failed)
    }

    constructor (bytes: seq<byte>)
      ensures Valid() && At() == RawCursor(bytes, 0, false)
    {
      data := bytes;
      pos := 0;
      failed := false;
    }

    method Has(n: nat) returns (r: bool)
      requires Valid()
      ensures r == At().Has(n)
    {
      r := !failed && |data| - pos >= n;
    }

    /** The loops of `u8`, `u32` and `u64`: `v = (v << 8) | byte`. */
    method GetNumber(k: nat) returns (v: nat)
      requires Valid()
      modifies this
      ensures Valid() && Read(v, At()) == ReadNumber(old(At()), k)
    {
      var enough := Has(k);
      if !enough {
        failed := true;
        return 0;
      }
      v := 0;
      var i := 0;
      while i < k
        invariant 0 <= i <= k
        invariant v == Number(data[pos..pos + i])
        invariant At() == old(At())
      {
        assert data[pos..pos + i + 1][..i] == data[pos..pos + i];
        v := 256 * v + data[pos + i];
        i := i + 1;
      }
      pos := pos + k;
    }

    method GetU8() returns (v: byte)
      requires Valid()
      modifies this
      ensures Valid() && Read(v, At()) == ReadU8(old(At()))
    {
      Powers();
      v := GetNumber(1);
    }

    method GetU32() returns (v: u32)
      requires Valid()
      modifies this
      ensures Valid() && Read(v, At()) == ReadU32(old(At()))
    {
      Powers();
      v := GetNumber(4);
    }

    method GetU64() returns (v: u64)
      requires Valid()
      modifies this
      ensures Valid() && Read(v, At()) == ReadU64(old(At()))
    {
      Powers();
      v := GetNumber(8);
    }

    method GetI64() returns (v: i64)
      requires Valid()
      modifies this
      ensures Valid() && Read(v, At()) == ReadI64(old(At()))
    {
      var u := GetU64();
      v := ToSigned(u);
    }

    /** `cstring`: stops at the NUL; more than 4096 characters, or no NUL, is a failure. */
    method GetString() returns (s: text)
      requires Valid()
      modifies this
      ensures Valid() && Read(s, At()) == ReadStr(old(At()))
    {
      s := [];
      while true
        invariant Valid()
        invariant ReadString(At(), s) == ReadStr(old(At()))
        decreases |data| - pos
      {
        var more := Has(1);
        if !more {
          failed := true;
          return;
        }
        var b := data[pos];
        pos := pos + 1;
        if b == 0 {
          return;
        }
        s := s + [b];
        if |s| > MAX_CSTRING {
          failed := true;
          return;
        }
      }
    }

    method Take(n: nat) returns (ok: bool, out: seq<byte>)
      requires Valid()
      modifies this
      ensures Valid()
      ensures ok == old(At()).Has(n)
      ensures ok ==> out == data[old(pos)..old(pos) + n] && At() == old(At()).(pos := old(pos) + n)
      ensures !ok ==> out == [] && At() == old(At()).Fail()
    {
      ok := Has(n);
      if !ok {
        failed := true;
        return false, [];
      }
      out := data[pos..pos + n];
      pos := pos + n;
    }

    // Loops of equal reads, one per kind of vector in a snapshot.

    method GetU64s(n: nat) returns (xs: seq<u64>)
      requires Valid()
      modifies this
      ensures Valid() && Read(xs, At()) == ReadU64s(old(At()), n)
    {
      hide ReadU64;
      xs := [];
      var i := 0;
      assert [] + ReadU64s(At(), n).value == ReadU64s(At(), n).value;
      while i < n
        invariant 0 <= i <= n && Valid()
        invariant var r := ReadU64s(At(), n - i); ReadU64s(old(At()), n) == Read(xs + r.value, r.at)
      {
        ghost var r := ReadU64s(At(), n - i);
        var x := GetU64();
        assert xs + r.value == (xs + [x]) + r.value[1..];
        xs := xs + [x];
        i := i + 1;
      }
      assert xs + [] == xs;
    }

    method GetU8s(n: nat) returns (xs: seq<byte>)
      requires Valid()
      modifies this
      ensures Valid() && Read(xs, At()) == ReadU8s(old(At()), n)
    {
      hide ReadU8;
      xs := [];
      var i := 0;
      assert [] + ReadU8s(At(), n).value == ReadU8s(At(), n).value;
      while i < n
        invariant 0 <= i <= n && Valid()
        invariant var r := ReadU8s(At(), n - i); ReadU8s(old(At()), n) == Read(xs + r.value, r.at)
      {
        ghost var r := ReadU8s(At(), n - i);
        var x := GetU8();
        assert xs + r.value == (xs + [x]) + r.value[1..];
        xs := xs + [x];
        i := i + 1;
      }
      assert xs + [] == xs;
    }

    method GetStrings(n: nat) returns (xs: seq<text>)
      requires Valid()
      modifies this
      ensures Valid() && Read(xs, At()) == ReadStrs(old(At()), n)
    {
      hide ReadStr;
      xs := [];
      var i := 0;
      assert [] + ReadStrs(At(), n).value == ReadStrs(At(), n).value;
      while i < n
        invariant 0 <= i <= n && Valid()
        invariant var r := ReadStrs(At(), n - i); ReadStrs(old(At()), n) == Read(xs + r.value, r.at)
      {
        ghost var r := ReadStrs(At(), n - i);
        var x := GetString();
        assert xs + r.value == (xs + [x]) + r.value[1..];
        xs := xs + [x];
        i := i + 1;
      }
      assert xs + [] == xs;
    }
  }
}
