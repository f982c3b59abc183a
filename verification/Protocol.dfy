/** The messages of distributed/protocol.cpp: encoding, and decoding with its bounds. */
module Protocol {
  import opened Integers
  import opened Codec
  import opened ByteStreams

  const MAX_STRING: u32 := 65536
  const MAX_BLOB: u32 := 1024 * 1024

  /** `Msg`. The message type is read back as any byte, listed or not. */
  datatype Msg = Msg(kind: byte, a: u64, b: u64, c: u64, d: u64, s1: text, s2: text, blob: seq<byte>)

  /** `static_cast<uint32_t>(size)`. */
  function Size(n: nat): u32 { n % TWO_32 }

  /** What `put_str` and `put_blob` append. */
  function Block(b: seq<byte>): seq<byte> { U32Bytes(Size(|b|)) + b }

  function Head(m: Msg): (h: seq<byte>)
    ensures |h| == 33
  {
    [m.kind] + U64Bytes(m.a) + U64Bytes(m.b) + U64Bytes(m.c) + U64Bytes(m.d)
  }

  function Encode(m: Msg): seq<byte> { Head(m) + (Block(m.s1) + (Block(m.s2) + (Block(m.blob) + []))) }

  /** `get_str` and `get_blob`: a block off the front, and what remains. */
  datatype Taken = Taken(block: seq<byte>, rest: seq<byte>)

  function TakeBlock(s: seq<byte>, max: u32): Option<Taken> {
    if |s| < 4 then None
    else
      var n := Number(s[..4]);
      if n > max || |s| - 4 < n then None else Some(Taken(s[4..4 + n], s[4 + n..]))
  }

  function GetU64(s: seq<byte>, pos: nat): u64
    requires pos + 8 <= |s|
  {
    Powers();
    Number(s[pos..pos + 8])
  }

  function Decode(s: seq<byte>): Option<Msg> {
    if |s| < 33 then None
    else
      var s1 := TakeBlock(s[33..], MAX_STRING);
      if s1.None? then None else
      var s2 := TakeBlock(s1.value.rest, MAX_STRING);
      if s2.None? then None else
      var blob := TakeBlock(s2.value.rest, MAX_BLOB);
      if blob.None? || blob.value.rest != [] then None
      else Some(Msg(s[0], GetU64(s, 1), GetU64(s, 9), GetU64(s, 17), GetU64(s, 25),
                    s1.value.block, s2.value.block, blob.value.block))
  }

  predicate InBounds(m: Msg) { |m.s1| <= MAX_STRING && |m.s2| <= MAX_STRING && |m.blob| <= MAX_BLOB }

  // ---- Decoding inverts encoding --------------------------------------------------------------

  lemma U64IsBytes(s: seq<byte>, v: u64)
    requires |s| == 8
    ensures Number(s) == v <==> s == U64Bytes(v)
  {
    Powers();
    BigEndianOfNumber(s);
    NumberOfBigEndian(v, 8);
  }

  lemma BlockTaken(s: seq<byte>, max: u32, b: seq<byte>, rest: seq<byte>)
    ensures TakeBlock(s, max) == Some(Taken(b, rest)) <==> |b| <= max && s == Block(b) + rest
  {
    if |s| >= 4 {
      U32IsBytes(s[..4], Size(|b|));
      hide Number;
      hide U32Bytes;
      if s == Block(b) + rest && |b| <= max {
        assert s[..4] == U32Bytes(Size(|b|)) && s[4..4 + |b|] == b && s[4 + |b|..] == rest;
      }
      if TakeBlock(s, max) == Some(Taken(b, rest)) {
        assert s == s[..4] + s[4..4 + |b|] + s[4 + |b|..];
      }
    }
  }

  lemma HeadIs(s: seq<byte>, m: Msg)
    requires |s| >= 33
    ensures s[..33] == Head(m) <==>
              && s[0] == m.kind && GetU64(s, 1) == m.a && GetU64(s, 9) == m.b && GetU64(s, 17) == m.c && GetU64(s, 25) == m.d
  {
    U64IsBytes(s[1..9], m.a);
    U64IsBytes(s[9..17], m.b);
    U64IsBytes(s[17..25], m.c);
    U64IsBytes(s[25..33], m.d);
    hide Number;
    hide U64Bytes;
    var h := Head(m);
    assert h[0] == m.kind && h[1..9] == U64Bytes(m.a) && h[9..17] == U64Bytes(m.b) && h[17..25] == U64Bytes(m.c)
        && h[25..33] == U64Bytes(m.d);
    assert s[..33] == [s[0]] + s[1..9] + s[9..17] + s[17..25] + s[25..33];
    if s[..33] == h {
      assert s[0] == s[..33][0];
      assert s[1..9] == s[..33][1..9] && s[9..17] == s[..33][9..17] && s[17..25] == s[..33][17..25] && s[25..33] == s[..33][25..33];
    }
  }

  /**
   A payload is accepted as message `m` exactly when it is the encoding of `m` and `m` is within the
   bounds: re-encoding an accepted payload gives back its bytes, and nothing else is accepted.
   */
  lemma DecodeIsInverse(s: seq<byte>, m: Msg)
    ensures Decode(s) == Some(m) <==> InBounds(m) && s == Encode(m)
  {
    var r3 := Block(m.blob) + [];
    var r2 := Block(m.s2) + r3;
    var r1 := Block(m.s1) + r2;
    if |s| >= 33 {
      HeadIs(s, m);
      BlockTaken(s[33..], MAX_STRING, m.s1, r2);
      BlockTaken(r2, MAX_STRING, m.s2, r3);
      BlockTaken(r3, MAX_BLOB, m.blob, []);
      assert s == s[..33] + s[33..];
      hide Head;
      hide Block;
      hide GetU64;
      if s == Encode(m) {
        assert s[..33] == Head(m) && s[33..] == r1;
      }
      hide TakeBlock;
      if Decode(s) == Some(m) {
        DecodedBlocks(s, m);
      }
    }
  }

  lemma DecodedBlocks(s: seq<byte>, m: Msg)
    requires Decode(s) == Some(m)
    ensures InBounds(m) && s[33..] == Block(m.s1) + (Block(m.s2) + (Block(m.blob) + []))
  {
    hide TakeBlock;
    hide GetU64;
    hide Block;
    var s1 := TakeBlock(s[33..], MAX_STRING).value;
    var s2 := TakeBlock(s1.rest, MAX_STRING).value;
    var blob := TakeBlock(s2.rest, MAX_BLOB).value;
    BlockTaken(s[33..], MAX_STRING, s1.block, s1.rest);
    BlockTaken(s1.rest, MAX_STRING, s2.block, s2.rest);
    BlockTaken(s2.rest, MAX_BLOB, blob.block, blob.rest);
  }

  lemma BlocksAgree(b: seq<byte>, rest: seq<byte>, c: seq<byte>, rest': seq<byte>)
    requires Block(b) + rest == Block(c) + rest' && |b| < TWO_32 && |c| < TWO_32
    ensures b == c && rest == rest'
  {
    hide TakeBlock;
    hide Block;
    BlockTaken(Block(b) + rest, TWO_32 - 1, b, rest);
    BlockTaken(Block(b) + rest, TWO_32 - 1, c, rest');
  }

  lemma EncodedLength(m: Msg)
    ensures |Encode(m)| == 45 + |m.s1| + |m.s2| + |m.blob|
  {
  }

  /** `encode` does not look at the bounds; what it makes of a message beyond them is never accepted. */
  lemma OutOfBoundsIsRejected(m: Msg)
    ensures Decode(Encode(m)) == if InBounds(m) then Some(m) else None
  {
    DecodeIsInverse(Encode(m), m);
    var r := Decode(Encode(m));
    hide Decode;
    if !InBounds(m) && r.Some? {
      var m' := r.value;
      DecodeIsInverse(Encode(m), m');
      EncodedLength(m);
      EncodedLength(m');
      assert Encode(m)[33..] == Block(m.s1) + (Block(m.s2) + (Block(m.blob) + []));
      assert Encode(m')[33..] == Block(m'.s1) + (Block(m'.s2) + (Block(m'.blob) + []));
      hide Block;
      hide Encode;
      BlocksAgree(m.s1, Block(m.s2) + (Block(m.blob) + []), m'.s1, Block(m'.s2) + (Block(m'.blob) + []));
      BlocksAgree(m.s2, Block(m.blob) + [], m'.s2, Block(m'.blob) + []);
      BlocksAgree(m.blob, [], m'.blob, []);
      assert false;
    }
  }

  // ---- The functions of the file --------------------------------------------------------------

  method PutBlock(w: ByteWriter, b: seq<byte>)
    modifies w
    ensures w.buf == old(w.buf) + Block(b)
  {
    hide BigEndian;
    w.PutNumber(Size(|b|), 4);
    for i := 0 to |b|
      invariant w.buf == old(w.buf) + (U32Bytes(Size(|b|)) + b[..i])
    {
      w.PutU8(b[i]);
      assert b[..i + 1] == b[..i] + [b[i]];
    }
    assert b[..|b|] == b;
  }

  method EncodeMessage(m: Msg) returns (out: seq<byte>)
    ensures out == Encode(m)
  {
    hide BigEndian;
    hide Block;
    var w := new ByteWriter();
    w.PutU8(m.kind);
    w.PutNumber(m.a, 8);
    w.PutNumber(m.b, 8);
    w.PutNumber(m.c, 8);
    w.PutNumber(m.d, 8);
    assert w.buf == Head(m);
    PutBlock(w, m.s1);
    PutBlock(w, m.s2);
    PutBlock(w, m.blob);
    out := w.buf;
  }

  /** The loops of `get_u32` and `get_u64`. */
  method GetNumberAt(s: seq<byte>, pos: nat, k: nat) returns (v: nat)
    requires pos + k <= |s|
    ensures v == Number(s[pos..pos + k])
  {
    v := 0;
    for i := 0 to k
      invariant v == Number(s[pos..pos + i])
    {
      assert s[pos..pos + i + 1][..i] == s[pos..pos + i];
      v := 256 * v + s[pos + i];
    }
  }

  /** `get_str` and `get_blob`: the position moves past the block, or the call fails. */
  method GetBlock(s: seq<byte>, start: nat, max: u32) returns (ok: bool, pos: nat, block: seq<byte>)
    requires start <= |s|
    ensures ok <==> TakeBlock(s[start..], max).Some?
    ensures ok ==> pos <= |s| && TakeBlock(s[start..], max) == Some(Taken(block, s[pos..]))
  {
    pos, block := start, [];
    if pos + 4 > |s| {
      return false, pos, block;
    }
    assert s[start..][..4] == s[pos..pos + 4];
    var n := GetNumberAt(s, pos, 4);
    hide Number;
    pos := pos + 4;
    if n > max {
      return false, pos, block;
    }
    if pos + n > |s| {
      return false, pos, block;
    }
    block := s[pos..pos + n];
    assert s[start..][4..4 + n] == block && s[start..][4 + n..] == s[pos + n..];
    pos := pos + n;
    ok := true;
  }

  method DecodeMessage(s: seq<byte>) returns (r: Option<Msg>)
    ensures r == Decode(s)
  {
    hide TakeBlock;
    hide Number;
    if |s| < 1 + 32 {
      return None;
    }
    var a := GetNumberAt(s, 1, 8);
    var b := GetNumberAt(s, 9, 8);
    var c := GetNumberAt(s, 17, 8);
    var d := GetNumberAt(s, 25, 8);
    Powers();
    var ok1, pos1, s1 := GetBlock(s, 33, MAX_STRING);
    if !ok1 {
      return None;
    }
    var ok2, pos2, s2 := GetBlock(s, pos1, MAX_STRING);
    if !ok2 {
      return None;
    }
    var ok3, pos3, blob := GetBlock(s, pos2, MAX_BLOB);
    if !ok3 {
      return None;
    }
    r := if pos3 == |s| then Some(Msg(s[0], a, b, c, d, s1, s2, blob)) else None;
  }
}
