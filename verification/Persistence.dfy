/** The frame of src/persistence.cpp, its parser, and the two stores. */
module Persistence {
  import opened Integers
  import opened Codec
  import opened ByteStreams
  import Crc = Crc32c

  const MAGIC: u32 := 0x5250
  const VERSION: u32 := 1
  const MAX_PAYLOAD: nat := 256 * 1024 * 1024

  /** The checksum as it is stored: a 32-bit number. */
  function Checksum(payload: seq<byte>): u32 { Crc.Checksum(payload, 0) as int }

  lemma ChecksumIsFaithful(p: seq<byte>, q: seq<byte>)
    ensures Checksum(p) == Checksum(q) ==> Crc.Checksum(p, 0) == Crc.Checksum(q, 0)
  {
    Crc.IntOfWord(Crc.Checksum(p, 0));
    Crc.IntOfWord(Crc.Checksum(q, 0));
  }

  function Header(n: u32): (h: seq<byte>)
    ensures |h| == 12
  {
    U32Bytes(MAGIC) + U32Bytes(VERSION) + U32Bytes(n)
  }

  /** The bytes that `save` commits for a payload within the size limit. */
  function Frame(payload: seq<byte>): (f: seq<byte>)
    requires |payload| <= MAX_PAYLOAD
    ensures |f| == |payload| + 16
  {
    Header(|payload|) + payload + U32Bytes(Checksum(payload))
  }

  /** `load` on the raw contents of a file, check by check. `len + 4` is a 32-bit sum. */
  function Parse(raw: seq<byte>): Option<seq<byte>> {
    if |raw| < 16 then None
    else
      var magic := ReadU32(RawCursor(raw, 0, false));
      var version := ReadU32(magic.at);
      var len := ReadU32(version.at);
      if len.at.failed || magic.value != MAGIC then None
      else if version.value != VERSION then None
      else if len.value > MAX_PAYLOAD then None
      else if !len.at.Has((len.value + 4) % TWO_32) then None
      else if !len.at.Has(len.value) then None
      else
        var payload := raw[len.at.pos..len.at.pos + len.value];
        var crc := ReadU32(len.at.(pos := len.at.pos + len.value));
        if crc.at.failed then None
        else if |raw| - crc.at.pos != 0 then None
        else if Checksum(payload) != crc.value then None
        else Some(payload)
  }

  lemma ReadU32At(raw: seq<byte>, pos: nat)
    requires pos + 4 <= |raw|
    ensures ReadU32(RawCursor(raw, pos, false)) == Read(Number(raw[pos..pos + 4]), RawCursor(raw, pos + 4, false))
  {
    Powers();
  }

  /** The conditions that the parser checks, on the parts of the file. */
  predicate FrameParts(raw: seq<byte>, p: seq<byte>) {
    && |p| <= MAX_PAYLOAD
    && |raw| == |p| + 16
    && raw[0..4] == U32Bytes(MAGIC)
    && raw[4..8] == U32Bytes(VERSION)
    && raw[8..12] == U32Bytes(|p|)
    && raw[12..12 + |p|] == p
    && raw[12 + |p|..12 + |p| + 4] == U32Bytes(Checksum(p))
  }

  /** What the parser checks, without its reader. */
  function ParseSlices(raw: seq<byte>): Option<seq<byte>> {
    if |raw| < 16 || Number(raw[0..4]) != MAGIC || Number(raw[4..8]) != VERSION then None
    else
      var n := Number(raw[8..12]);
      if n > MAX_PAYLOAD || |raw| != n + 16 || Number(raw[12 + n..12 + n + 4]) != Checksum(raw[12..12 + n]) then None
      else Some(raw[12..12 + n])
  }

  lemma ParseIsSlices(raw: seq<byte>)
    ensures Parse(raw) == ParseSlices(raw)
  {
    if |raw| >= 16 {
      ReadU32At(raw, 0);
      ReadU32At(raw, 4);
      ReadU32At(raw, 8);
      var n := Number(raw[8..12]);
      if n <= MAX_PAYLOAD && |raw| >= n + 16 {
        ReadU32At(raw, 12 + n);
      }
      hide ReadU32;
      hide Number;
      hide Checksum;
    }
  }

  lemma ParseParts(raw: seq<byte>, p: seq<byte>)
    ensures Parse(raw) == Some(p) <==> FrameParts(raw, p)
  {
    ParseIsSlices(raw);
    hide Parse;
    hide Checksum;
    Powers();
    if |raw| >= 16 {
      U32IsBytes(raw[0..4], MAGIC);
      U32IsBytes(raw[4..8], VERSION);
      var n := Number(raw[8..12]);
      U32IsBytes(raw[8..12], n);
      if |p| <= MAX_PAYLOAD {
        U32IsBytes(raw[8..12], |p|);
      }
      if |raw| == n + 16 {
        U32IsBytes(raw[12 + n..12 + n + 4], Checksum(raw[12..12 + n]));
      }
    }
    hide Number;
    hide U32Bytes;
  }

  /** Frame parser and frame printer are exact inverses. */
  lemma ParseIsInverse(raw: seq<byte>, p: seq<byte>)
    ensures Parse(raw) == Some(p) <==> |p| <= MAX_PAYLOAD && raw == Frame(p)
  {
    ParseParts(raw, p);
    hide Parse;
    hide Checksum;
    if |p| <= MAX_PAYLOAD {
      var f := Frame(p);
      assert f[0..4] == U32Bytes(MAGIC) && f[4..8] == U32Bytes(VERSION) && f[8..12] == U32Bytes(|p|);
      assert f[12..12 + |p|] == p && f[12 + |p|..12 + |p| + 4] == U32Bytes(Checksum(p));
      if |raw| == |p| + 16 {
        assert raw == raw[0..4] + raw[4..8] + raw[8..12] + raw[12..12 + |p|] + raw[12 + |p|..12 + |p| + 4];
      }
    }
  }

  // ---- What is rejected -----------------------------------------------------------------------

  /** `raw` has the length of `f` and agrees with it outside `[from, from + width)`. */
  predicate AgreeOutside(raw: seq<byte>, f: seq<byte>, from: nat, width: nat) {
    && |raw| == |f| && from + width <= |f|
    && (forall k :: 0 <= k < |f| && !(from <= k < from + width) ==> raw[k] == f[k])
  }

  /** Damage that lies in the header, in the checksum, or in at most four consecutive payload bytes. */
  predicate Damaged(raw: seq<byte>, p: seq<byte>, from: nat, width: nat)
    requires |p| <= MAX_PAYLOAD
  {
    && raw != Frame(p)
    && AgreeOutside(raw, Frame(p), from, width)
    && (from + width <= 12 || 12 + |p| <= from || (width <= 4 && 12 <= from && from + width <= 12 + |p|))
  }

  lemma FrameSlices(p: seq<byte>)
    requires |p| <= MAX_PAYLOAD
    ensures Frame(p)[..12] == Header(|p|)
    ensures Frame(p)[12..12 + |p|] == p
    ensures Frame(p)[12 + |p|..] == U32Bytes(Checksum(p))
  {
    hide Checksum;
    hide U32Bytes;
  }

  lemma PayloadBurst(p: seq<byte>, q: seq<byte>, from: nat, width: nat)
    requires |p| == |q| && p != q && width <= 4 && from + width <= |p|
    requires forall k :: 0 <= k < |p| && !(from <= k < from + width) ==> p[k] == q[k]
    ensures Checksum(p) != Checksum(q)
  {
    var before, after := p[..from], p[from + width..];
    var x, y := p[from..from + width], q[from..from + width];
    assert before == q[..from] && after == q[from + width..];
    assert p == before + x + after && q == before + y + after;
    Crc.DetectsByteBurst(before, x, y, after, 0);
    ChecksumIsFaithful(p, q);
  }

  lemma DifferAt(p: seq<byte>, q: seq<byte>) returns (k: nat)
    requires |p| == |q| && p != q
    ensures k < |p| && p[k] != q[k]
  {
    k := 0;
    while k < |p| && p[k] == q[k]
      invariant k <= |p| && p[..k] == q[..k]
    {
      k := k + 1;
    }
  }

  lemma NumberBytesDiffer(x: u32, y: u32)
    requires x != y
    ensures U32Bytes(x) != U32Bytes(y)
  {
    U32IsBytes(U32Bytes(x), x);
    U32IsBytes(U32Bytes(x), y);
  }

  /** A damaged frame is rejected; in particular every change of a single byte is. */
  lemma DamagedFrameIsRejected(raw: seq<byte>, p: seq<byte>, from: nat, width: nat)
    requires |p| <= MAX_PAYLOAD && Damaged(raw, p, from, width)
    ensures Parse(raw) == None
  {
    var f := Frame(p);
    FrameSlices(p);
    if Parse(raw) != None {
      var q := Parse(raw).value;
      ParseIsInverse(raw, q);
      hide Parse;
      hide Checksum;
      FrameSlices(q);
      assert |q| == |p|;
      var k := DifferAt(p, q);
      assert f[12..12 + |p|][k] == f[12 + k] && raw[12..12 + |p|][k] == raw[12 + k];
      assert 12 <= from && from + width <= 12 + |p|;
      forall i | 0 <= i < |p| && !(from - 12 <= i < from - 12 + width) ensures p[i] == q[i] {
        assert f[12..12 + |p|][i] == f[12 + i] && raw[12..12 + |p|][i] == raw[12 + i];
      }
      assert f[12 + |p|..] == raw[12 + |p|..];
      PayloadBurst(p, q, from - 12, width);
      NumberBytesDiffer(Checksum(p), Checksum(q));
    }
  }

  lemma SameHeaderSameLength(m: u32, n: u32)
    requires Header(m) == Header(n)
    ensures m == n
  {
    if m != n {
      hide BigEndian;
      assert Header(m)[8..12] == U32Bytes(m) && Header(n)[8..12] == U32Bytes(n);
      NumberBytesDiffer(m, n);
    }
  }

  /** Truncation and extension: files that share the first twelve bytes of a frame but not its length. */
  lemma ResizedFrameIsRejected(raw: seq<byte>, p: seq<byte>)
    requires |p| <= MAX_PAYLOAD && |raw| != |Frame(p)|
    requires raw <= Frame(p) || Frame(p) <= raw
    ensures Parse(raw) == None
  {
    var f := Frame(p);
    FrameSlices(p);
    if Parse(raw) != None {
      var q := Parse(raw).value;
      ParseIsInverse(raw, q);
      hide Parse;
      hide Checksum;
      hide Header;
      FrameSlices(q);
      assert raw[..12] == f[..12];
      SameHeaderSameLength(|p|, |q|);
    }
  }

  // ---- Stores ---------------------------------------------------------------------------------

  /** What a store holds: payloads by key, or file contents by file name. */
  datatype Disk = InMemory(blobs: map<text, seq<byte>>) | OnFiles(files: map<text, seq<byte>>)

  datatype Saved = Saved(disk: Disk) | TooLarge

  predicate KeyCharacter(c: byte) {
    'a' as int <= c <= 'z' as int || 'A' as int <= c <= 'Z' as int || '0' as int <= c <= '9' as int
    || c == '-' as int || c == '_' as int || c == '.' as int
  }

  /** `sanitize_key`: what is not a key character becomes an underscore; an empty key becomes "state". */
  function SanitizeKey(key: text): text {
    if key == [] then [115, 116, 97, 116, 101]
    else seq(|key|, i requires 0 <= i < |key| => if KeyCharacter(key[i]) then key[i] else '_' as int)
  }

  function Save(d: Disk, key: text, payload: seq<byte>): Saved {
    match d
    case InMemory(blobs) => Saved(InMemory(blobs[key := payload]))
    case OnFiles(files) =>
      if |payload| > MAX_PAYLOAD then TooLarge else Saved(OnFiles(files[SanitizeKey(key) := Frame(payload)]))
  }

  function Load(d: Disk, key: text): Option<seq<byte>> {
    match d
    case InMemory(blobs) => if key in blobs then Some(blobs[key]) else None
    case OnFiles(files) => if SanitizeKey(key) in files then Parse(files[SanitizeKey(key)]) else None
  }

  /** What was saved is what is loaded; a payload that is too large is refused by files only. */
  lemma LoadAfterSave(d: Disk, key: text, payload: seq<byte>)
    ensures Save(d, key, payload).TooLarge? <==> d.OnFiles? && |payload| > MAX_PAYLOAD
    ensures Save(d, key, payload).Saved? ==> Load(Save(d, key, payload).disk, key) == Some(payload)
  {
    hide Parse;
    if d.OnFiles? && |payload| <= MAX_PAYLOAD {
      ParseIsInverse(Frame(payload), payload);
    }
  }

  /** File names hold key characters only: those of the key, and underscores for the others. */
  lemma KeysAreSanitized(key: text)
    ensures SanitizeKey(key) != [] && (forall i :: 0 <= i < |SanitizeKey(key)| ==> KeyCharacter(SanitizeKey(key)[i]))
    ensures SanitizeKey(key) == key <==> key != [] && (forall i :: 0 <= i < |key| ==> KeyCharacter(key[i]))
    ensures key != [] ==> |SanitizeKey(key)| == |key| && (forall i :: 0 <= i < |key| && !KeyCharacter(key[i]) ==> SanitizeKey(key)[i] == 95)
    ensures key != [] ==> forall i :: 0 <= i < |key| && KeyCharacter(key[i]) ==> SanitizeKey(key)[i] == key[i]
    ensures SanitizeKey(SanitizeKey(key)) == SanitizeKey(key)
  {
  }

  /** Whether the keys `k` and `l` stand for the same entry of a store. */
  predicate SameEntry(d: Disk, k: text, l: text) {
    match d
    case InMemory(_) => k == l
    case OnFiles(_) => SanitizeKey(k) == SanitizeKey(l)
  }

  /** Saving touches one entry: a key that stands for another one loads what it did. */
  lemma OtherKeysAreUntouched(d: Disk, key: text, payload: seq<byte>, other: text)
    requires Save(d, key, payload).Saved? && !SameEntry(d, key, other)
    ensures Load(Save(d, key, payload).disk, other) == Load(d, other)
  {
    hide Parse;
    hide Frame;
    hide SanitizeKey;
  }

  /** A file that a crash or a disk has damaged is as good as absent: `load` never returns other bytes. */
  lemma LoadAfterDamage(files: map<text, seq<byte>>, key: text, p: seq<byte>, raw: seq<byte>, from: nat, width: nat)
    requires |p| <= MAX_PAYLOAD
    requires Damaged(raw, p, from, width) || (|raw| != |Frame(p)| && (raw <= Frame(p) || Frame(p) <= raw))
    ensures Load(OnFiles(files[SanitizeKey(key) := raw]), key) == None
  {
    hide Parse;
    if Damaged(raw, p, from, width) {
      DamagedFrameIsRejected(raw, p, from, width);
    } else {
      ResizedFrameIsRejected(raw, p);
    }
  }

  /** `PersistenceStore`, its two implementations told apart by the kind of disk they keep. */
  class PersistenceStore {
    var disk: Disk

    constructor Files()
      ensures disk == OnFiles(map[])
    {
      disk := OnFiles(map[]);
    }

    constructor Memory()
      ensures disk == InMemory(map[])
    {
      disk := InMemory(map[]);
    }

    /** `save`: the file store throws when the payload is too large, and has written nothing then. */
    method SaveBlob(key: text, payload: seq<byte>) returns (ok: bool)
      modifies this
      ensures ok <==> Save(old(disk), key, payload).Saved?
      ensures ok ==> Save(old(disk), key, payload) == Saved(disk)
      ensures !ok ==> disk == old(disk)
    {
      match disk {
        case InMemory(blobs) =>
          disk := InMemory(blobs[key := payload]);
        case OnFiles(files) =>
          if |payload| > MAX_PAYLOAD {
            return false;
          }
          var frame := BuildFrame(payload);
          disk := OnFiles(files[SanitizeKey(key) := frame]);
      }
      ok := true;
    }

    method LoadBlob(key: text) returns (r: Option<seq<byte>>)
      ensures r == Load(disk, key)
    {
      match disk {
        case InMemory(blobs) =>
          r := if key in blobs then Some(blobs[key]) else None;
        case OnFiles(files) =>
          if SanitizeKey(key) !in files {
            return None;
          }
          r := ParseFrame(files[SanitizeKey(key)]);
      }
    }
  }

  method BuildFrame(payload: seq<byte>) returns (frame: seq<byte>)
    requires |payload| <= MAX_PAYLOAD
    ensures frame == Frame(payload)
  {
    hide BigEndian;
    var w := new ByteWriter();
    w.PutU32(MAGIC);
    w.PutU32(VERSION);
    w.PutU32(|payload|);
    assert w.buf == Header(|payload|);
    var i := 0;
    while i < |payload|
      invariant 0 <= i <= |payload|
      invariant w.buf == Header(|payload|) + payload[..i]
    {
      w.PutU8(payload[i]);
      assert payload[..i + 1] == payload[..i] + [payload[i]];
      i := i + 1;
    }
    assert payload[..i] == payload;
    var crc := Crc.Crc32c(payload, 0);
    w.PutU32(crc as int);
    frame := w.buf;
  }

  method ParseFrame(raw: seq<byte>) returns (r: Option<seq<byte>>)
    ensures r == Parse(raw)
  {
    hide ReadU32;
    if |raw| < 16 {
      return None;
    }
    var reader := new ByteReader(raw);
    var magic := reader.GetU32();
    var version := reader.GetU32();
    var len := reader.GetU32();
    if reader.failed || magic != MAGIC {
      return None;
    }
    if version != VERSION {
      return None;
    }
    if len > MAX_PAYLOAD {
      return None;
    }
    var enough := reader.Has((len + 4) % TWO_32);
    if !enough {
      return None;
    }
    var taken, payload := reader.Take(len);
    if !taken {
      return None;
    }
    var stored := reader.GetU32();
    if reader.failed {
      return None;
    }
    if |raw| - reader.pos != 0 {
      return None;
    }
    var crc := Crc.Crc32c(payload, 0);
    if crc as int != stored {
      return None;
    }
    return Some(payload);
  }
}
