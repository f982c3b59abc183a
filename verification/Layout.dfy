/** The bytes themselves: where fields stand, which codes they have, and known values to compare with. */
module Layout {
  import opened Integers
  import opened Domain
  import opened Codec
  import opened Snapshot
  import Crc = Crc32c
  import Persistence
  import Protocol
  import Transport

  // ---- Numbers --------------------------------------------------------------------------------

  /** The most significant byte comes first. */
  lemma U32Digits(n: u32)
    ensures U32Bytes(n) == [n / 0x100_0000, n / 0x1_0000 % 256, n / 0x100 % 256, n % 256]
  {
    var a := n / 256;
    var b := a / 256;
    assert BigEndian(n, 4) == BigEndian(a, 3) + [n % 256];
    assert BigEndian(a, 3) == BigEndian(b, 2) + [a % 256];
    assert BigEndian(b, 2) == BigEndian(b / 256, 1) + [b % 256];
  }

  lemma LowDigits(n: nat, d: nat, x3: byte, x2: byte, x1: byte, x0: byte)
    requires n == 0x1_0000_0000 * d + (0x100_0000 * x3 + 0x1_0000 * x2 + 0x100 * x1 + x0)
    ensures n / 0x1_0000_0000 == d
    ensures U32Bytes(n % 0x1_0000_0000) == [x3, x2, x1, x0]
  {
    var low := 0x100_0000 * x3 + 0x1_0000 * x2 + 0x100 * x1 + x0;
    assert n % 0x1_0000_0000 == low;
    U32Digits(low);
    hide BigEndian;
    assert low / 0x100_0000 == x3;
    assert low / 0x1_0000 == 256 * x3 + x2;
    assert low / 0x100 == 0x1_0000 * x3 + 0x100 * x2 + x1;
  }

  /** The upper half of a 64-bit number comes before the lower half. */
  lemma U64Halves(n: u64)
    ensures U64Bytes(n) == U32Bytes(n / 0x1_0000_0000) + U32Bytes(n % 0x1_0000_0000)
  {
    var a := n / 256;
    var b := a / 256;
    var c := b / 256;
    assert BigEndian(n, 8) == BigEndian(a, 7) + [n % 256];
    assert BigEndian(a, 7) == BigEndian(b, 6) + [a % 256];
    assert BigEndian(b, 6) == BigEndian(c, 5) + [b % 256];
    assert BigEndian(c, 5) == BigEndian(c / 256, 4) + [c % 256];
    hide BigEndian;
    LowDigits(n, c / 256, c % 256, b % 256, a % 256, n % 256);
  }

  lemma SignedIsModular(x: i64)
    ensures ToUnsigned(x) == x % TWO_64 && ToSigned(ToUnsigned(x)) == x
  {
  }

  // ---- Known frames and a known checksum ------------------------------------------------------

  lemma ChecksumOfNothing()
    ensures Persistence.Checksum([]) == 0
  {
  }

  lemma StoreHeader()
    ensures Persistence.Header(0) == [0, 0, 0x52, 0x50, 0, 0, 0, 1, 0, 0, 0, 0]
  {
    U32Digits(0x5250);
    U32Digits(1);
    U32Digits(0);
    hide BigEndian;
  }

  lemma WireHeader()
    ensures Transport.Header(0) == [0x52, 0x50, 0x46, 0x31, 1, 0, 0, 0, 0]
  {
    U32Digits(0x5250_4631);
    U32Digits(0);
    hide BigEndian;
  }

  /** An empty payload in the frame of the store and in that of the wire, byte by byte. */
  lemma FrameOfNothing()
    ensures Persistence.Frame([]) == [0, 0, 0x52, 0x50, 0, 0, 0, 1, 0, 0, 0, 0, 0, 0, 0, 0]
    ensures Transport.Frame([]) == [0x52, 0x50, 0x46, 0x31, 1, 0, 0, 0, 0, 0, 0, 0, 0]
  {
    ChecksumOfNothing();
    StoreHeader();
    WireHeader();
    U32Digits(0);
    hide Persistence.Checksum;
    hide Persistence.Header;
    hide Transport.Header;
    hide BigEndian;
  }

  function EightShifts(s: bv32): bv32 {
    Crc.Shift(Crc.Shift(Crc.Shift(Crc.Shift(Crc.Shift(Crc.Shift(Crc.Shift(Crc.Shift(s))))))))
  }

  lemma ShiftNIsEightShifts(s: bv32)
    ensures Crc.ShiftN(s, 8) == EightShifts(s)
  {
    hide Crc.Shift;
    var t := Crc.Shift(Crc.Shift(Crc.Shift(Crc.Shift(s))));
    assert Crc.ShiftN(s, 8) == Crc.ShiftN(Crc.Shift(Crc.Shift(s)), 6);
    assert Crc.ShiftN(s, 8) == Crc.ShiftN(t, 4);
    assert Crc.ShiftN(t, 4) == Crc.ShiftN(Crc.Shift(Crc.Shift(t)), 2);
  }

  /** The division register after one more byte. */
  lemma RegisterStep(data: seq<byte>, b: byte, s: bv32, next: bv32)
    requires Crc.Divide(Crc.Not(0), Crc.MessageBits(data)) == s && Crc.TableStep(s, b) == next
    ensures Crc.Divide(Crc.Not(0), Crc.MessageBits(data + [b])) == next
  {
    hide Crc.Divide;
    hide Crc.TableStep;
    hide Crc.MessageBits;
    Crc.MessageBitsConcat(data, [b]);
    Crc.MessageBitsOfOne(b);
    Crc.DivideConcat(Crc.Not(0), Crc.MessageBits(data), Crc.BitsOf(b, 8));
    Crc.TableStepDividesOneByte(s, b);
  }

  lemma StepValue(s: bv32, b: byte, low: bv32, shifted: bv32, next: bv32)
    requires Crc.Index(s, b) == low && EightShifts(low) == shifted && shifted ^ (s >> 8) == next
    ensures Crc.TableStep(s, b) == next
  {
    ShiftNIsEightShifts(low);
    hide EightShifts;
    hide Crc.ShiftN;
    hide Crc.Index;
  }

  lemma StepOf1()
    ensures Crc.TableStep(0xffffffff, 49) == 0x6f0a661c
  {
    StepValue(0xffffffff, 49, 0xce, 0x6ff599e3, 0x6f0a661c);
  }

  lemma StepOf2()
    ensures Crc.TableStep(0x6f0a661c, 50) == 0x8caa3b9f
  {
    StepValue(0x6f0a661c, 50, 0x2e, 0x8cc531f9, 0x8caa3b9f);
  }

  lemma StepOf3()
    ensures Crc.TableStep(0x8caa3b9f, 51) == 0xef84d04d
  {
    StepValue(0x8caa3b9f, 51, 0xac, 0xef087a76, 0xef84d04d);
  }

  lemma StepOf4()
    ensures Crc.TableStep(0xef84d04d, 52) == 0x09c50b11
  {
    StepValue(0xef84d04d, 52, 0x79, 0x092a8fc1, 0x09c50b11);
  }

  lemma StepOf5()
    ensures Crc.TableStep(0x09c50b11, 53) == 0xe72edcca
  {
    StepValue(0x09c50b11, 53, 0x24, 0xe72719c1, 0xe72edcca);
  }

  lemma StepOf6()
    ensures Crc.TableStep(0xe72edcca, 54) == 0xbeca8e79
  {
    StepValue(0xe72edcca, 54, 0xfc, 0xbe2da0a5, 0xbeca8e79);
  }

  lemma StepOf7()
    ensures Crc.TableStep(0xbeca8e79, 55) == 0xedbd6815
  {
    StepValue(0xbeca8e79, 55, 0x4e, 0xed03a29b, 0xedbd6815);
  }

  lemma StepOf8()
    ensures Crc.TableStep(0xedbd6815, 56) == 0x9f787f65
  {
    StepValue(0xedbd6815, 56, 0x2d, 0x9f95c20d, 0x9f787f65);
  }

  lemma StepOf9()
    ensures Crc.TableStep(0x9f787f65, 57) == 0x1cf96d7c
  {
    StepValue(0x9f787f65, 57, 0x5c, 0x1c661503, 0x1cf96d7c);
  }

  lemma EmptyRegister()
    ensures Crc.Divide(Crc.Not(0), Crc.MessageBits([])) == 0xffffffff
  {
  }

  lemma RegisterAfter1()
    ensures Crc.Divide(Crc.Not(0), Crc.MessageBits([49])) == 0x6f0a661c
  {
    hide *;
    EmptyRegister();
    StepOf1();
    RegisterStep([], 49, 0xffffffff, 0x6f0a661c);
    assert [] + [49] == [49];
  }

  lemma RegisterAfter2()
    ensures Crc.Divide(Crc.Not(0), Crc.MessageBits([49, 50])) == 0x8caa3b9f
  {
    hide *;
    RegisterAfter1();
    StepOf2();
    RegisterStep([49], 50, 0x6f0a661c, 0x8caa3b9f);
    assert [49] + [50] == [49, 50];
  }

  lemma RegisterAfter3()
    ensures Crc.Divide(Crc.Not(0), Crc.MessageBits([49, 50, 51])) == 0xef84d04d
  {
    hide *;
    RegisterAfter2();
    StepOf3();
    RegisterStep([49, 50], 51, 0x8caa3b9f, 0xef84d04d);
    assert [49, 50] + [51] == [49, 50, 51];
  }

  lemma RegisterAfter4()
    ensures Crc.Divide(Crc.Not(0), Crc.MessageBits([49, 50, 51, 52])) == 0x09c50b11
  {
    hide *;
    RegisterAfter3();
    StepOf4();
    RegisterStep([49, 50, 51], 52, 0xef84d04d, 0x09c50b11);
    assert [49, 50, 51] + [52] == [49, 50, 51, 52];
  }

  lemma RegisterAfter5()
    ensures Crc.Divide(Crc.Not(0), Crc.MessageBits([49, 50, 51, 52, 53])) == 0xe72edcca
  {
    hide *;
    RegisterAfter4();
    StepOf5();
    RegisterStep([49, 50, 51, 52], 53, 0x09c50b11, 0xe72edcca);
    assert [49, 50, 51, 52] + [53] == [49, 50, 51, 52, 53];
  }

  lemma RegisterAfter6()
    ensures Crc.Divide(Crc.Not(0), Crc.MessageBits([49, 50, 51, 52, 53, 54])) == 0xbeca8e79
  {
    hide *;
    RegisterAfter5();
    StepOf6();
    RegisterStep([49, 50, 51, 52, 53], 54, 0xe72edcca, 0xbeca8e79);
    assert [49, 50, 51, 52, 53] + [54] == [49, 50, 51, 52, 53, 54];
  }

  lemma RegisterAfter7()
    ensures Crc.Divide(Crc.Not(0), Crc.MessageBits([49, 50, 51, 52, 53, 54, 55])) == 0xedbd6815
  {
    hide *;
    RegisterAfter6();
    StepOf7();
    RegisterStep([49, 50, 51, 52, 53, 54], 55, 0xbeca8e79, 0xedbd6815);
    assert [49, 50, 51, 52, 53, 54] + [55] == [49, 50, 51, 52, 53, 54, 55];
  }

  lemma RegisterAfter8()
    ensures Crc.Divide(Crc.Not(0), Crc.MessageBits([49, 50, 51, 52, 53, 54, 55, 56])) == 0x9f787f65
  {
    hide *;
    RegisterAfter7();
    StepOf8();
    RegisterStep([49, 50, 51, 52, 53, 54, 55], 56, 0xedbd6815, 0x9f787f65);
    assert [49, 50, 51, 52, 53, 54, 55] + [56] == [49, 50, 51, 52, 53, 54, 55, 56];
  }

  lemma RegisterAfter9()
    ensures Crc.Divide(Crc.Not(0), Crc.MessageBits([49, 50, 51, 52, 53, 54, 55, 56, 57])) == 0x1cf96d7c
  {
    hide *;
    RegisterAfter8();
    StepOf9();
    RegisterStep([49, 50, 51, 52, 53, 54, 55, 56], 57, 0x9f787f65, 0x1cf96d7c);
    assert [49, 50, 51, 52, 53, 54, 55, 56] + [57] == [49, 50, 51, 52, 53, 54, 55, 56, 57];
  }

  /** The check value of CRC-32C: the checksum of the digits 1 to 9, as the standards give it. */
  lemma CheckValue()
    ensures Crc.Checksum([49, 50, 51, 52, 53, 54, 55, 56, 57], 0) == 0xe3069283
  {
    RegisterAfter9();
    hide Crc.Divide;
    hide Crc.MessageBits;
  }

  // ---- The bytes of a snapshot ----------------------------------------------------------------

  /** 64-bit numbers, one after another. */
  function Words(xs: seq<u64>): seq<byte> { if xs == [] then [] else U64Bytes(xs[0]) + Words(xs[1..]) }

  lemma {:induction false} WordsAreEncoded(xs: seq<u64>, rest: Tokens)
    ensures Encode(U64s(xs, rest)) == Words(xs) + Encode(rest)
    decreases xs
  {
    hide BigEndian;
    if xs != [] {
      WordsAreEncoded(xs[1..], rest);
      assert U64Bytes(xs[0]) + (Words(xs[1..]) + Encode(rest)) == (U64Bytes(xs[0]) + Words(xs[1..])) + Encode(rest);
    }
  }

  /** A snapshot begins with the format version and the seven generations, in this order. */
  lemma SnapshotHead(s: State)
    ensures exists rest :: EncodeSnapshot(s) ==
              U32Bytes(1) + Words([s.ctx.epoch, s.ctx.plannerBoot, s.ctx.workloadGeneration, s.ctx.policyGeneration,
                                   s.ctx.compatibilityGeneration, s.ctx.resourceGeneration, s.ctx.topologyGeneration]) + rest
  {
    WordsAreEncoded(Generations(s.ctx), WorkerSection(s));
    hide WorkerSection;
    hide Words;
    hide U64s;
    hide BigEndian;
    var rest := Encode(WorkerSection(s));
    assert EncodeSnapshot(s) == U32Bytes(1) + (Words(Generations(s.ctx)) + rest);
    assert EncodeSnapshot(s) == U32Bytes(1) + Words(Generations(s.ctx)) + rest;
  }

  /** The codes of states and outcomes in a snapshot, in the order of their declarations. */
  lemma CodesAre(code: byte)
    ensures LifeOf(code) ==
              if code < 12
              then [Requested, Evaluating, Planned, Authorized, Dispatched, Executing, Succeeded, Failed, Superseded, Cancelled,
                    Expired, Invalidated][code]
              else Unlisted(code)
    ensures OutcomeOf(code) == if code < 5 then [Success, Failure, Ambiguous, Unknown, Withdrawn][code] else OtherOutcome(code)
    ensures LifeByte(LifeOf(code)) == code && OutcomeByte(OutcomeOf(code)) == code
  {
  }

  /** A message: its type, four numbers, and three blocks, each behind its length. */
  lemma MessageBytes(m: Protocol.Msg)
    requires |m.s1| < TWO_32 && |m.s2| < TWO_32 && |m.blob| < TWO_32
    ensures Protocol.Encode(m) == [m.kind] + Words([m.a, m.b, m.c, m.d]) + (U32Bytes(|m.s1|) + m.s1)
                                  + (U32Bytes(|m.s2|) + m.s2) + (U32Bytes(|m.blob|) + m.blob)
  {
    hide BigEndian;
    WordsOfFour(m.a, m.b, m.c, m.d);
    hide Words;
    assert Protocol.Block(m.s1) == U32Bytes(|m.s1|) + m.s1 && Protocol.Block(m.s2) == U32Bytes(|m.s2|) + m.s2;
    assert Protocol.Block(m.blob) == U32Bytes(|m.blob|) + m.blob;
    hide Protocol.Block;
  }

  lemma WordsOfFour(a: u64, b: u64, c: u64, d: u64)
    ensures Words([a, b, c, d]) == U64Bytes(a) + U64Bytes(b) + U64Bytes(c) + U64Bytes(d)
  {
    hide BigEndian;
    assert Words([d]) == U64Bytes(d) && Words([c, d]) == U64Bytes(c) + Words([d]);
    assert Words([b, c, d]) == U64Bytes(b) + Words([c, d]) && Words([a, b, c, d]) == U64Bytes(a) + Words([b, c, d]);
  }
}
