/**
 The framing of distributed/transport.cpp over an abstract byte stream that delivers its bytes in pieces
 of any size, with interruptions anywhere.
 */
module Transport {
  import opened Integers
  import opened Codec
  import opened ByteStreams
  import Crc = Crc32c
  import Persistence
  import Protocol

  const MAGIC: u32 := 0x5250_4631
  const VERSION: byte := 1
  const MAX_PAYLOAD: u32 := 1024 * 1024

  // ---- The frame ------------------------------------------------------------------------------

  function Header(n: u32): (h: seq<byte>)
    ensures |h| == 9
  {
    U32Bytes(MAGIC) + [VERSION] + U32Bytes(n)
  }

  function Tail(payload: seq<byte>): (t: seq<byte>)
    ensures |t| == 4
  {
    U32Bytes(Persistence.Checksum(payload))
  }

  function Frame(payload: seq<byte>): (f: seq<byte>)
    requires |payload| <= MAX_PAYLOAD
    ensures |f| == |payload| + 13
  {
    Header(|payload|) + payload + Tail(payload)
  }

  /** What `recv_frame` makes of the bytes to come. */
  datatype Reception = Received(payload: seq<byte>, rest: seq<byte>) | Closed | Malformed

  function Receive(s: seq<byte>): Reception {
    if |s| < 9 then Closed
    else if Number(s[..4]) != MAGIC || s[4] != VERSION || Number(s[5..9]) > MAX_PAYLOAD then Malformed
    else
      var n := Number(s[5..9]);
      if |s| < 9 + n + 4 then Closed
      else if Number(s[9 + n..9 + n + 4]) != Persistence.Checksum(s[9..9 + n]) then Malformed
      else Received(s[9..9 + n], s[9 + n + 4..])
  }

  /** What `recv_frame` checks, on the parts of the stream. */
  predicate Parts(s: seq<byte>, p: seq<byte>, rest: seq<byte>) {
    && |p| <= MAX_PAYLOAD
    && |s| == |p| + 13 + |rest|
    && s[..4] == U32Bytes(MAGIC) && s[4] == VERSION && s[5..9] == U32Bytes(|p|)
    && s[9..9 + |p|] == p && s[9 + |p|..9 + |p| + 4] == Tail(p) && s[9 + |p| + 4..] == rest
  }

  lemma PartsOfFrame(s: seq<byte>, p: seq<byte>, rest: seq<byte>)
    ensures Parts(s, p, rest) <==> |p| <= MAX_PAYLOAD && s == Frame(p) + rest
  {
    hide BigEndian;
    hide Tail;
    if |p| <= MAX_PAYLOAD && |s| == |p| + 13 + |rest| {
      var f := Frame(p) + rest;
      var n := |p|;
      assert f[..4] == U32Bytes(MAGIC) && f[4] == VERSION && f[5..9] == U32Bytes(n);
      assert f[9..9 + n] == p && f[9 + n..9 + n + 4] == Tail(p) && f[9 + n + 4..] == rest;
      assert s == s[..4] + [s[4]] + s[5..9] + s[9..9 + n] + s[9 + n..9 + n + 4] + s[9 + n + 4..];
    }
  }

  lemma ReceivedParts(s: seq<byte>, p: seq<byte>, rest: seq<byte>)
    ensures Receive(s) == Received(p, rest) <==> Parts(s, p, rest)
  {
    Powers();
    if |s| >= 9 {
      U32IsBytes(s[..4], MAGIC);
      var n := Number(s[5..9]);
      U32IsBytes(s[5..9], n);
      if |p| <= MAX_PAYLOAD {
        U32IsBytes(s[5..9], |p|);
      }
      if |s| >= 9 + n + 4 {
        U32IsBytes(s[9 + n..9 + n + 4], Persistence.Checksum(s[9..9 + n]));
      }
    }
    hide U32Bytes;
    hide Number;
    hide Persistence.Checksum;
  }

  /** A frame is received exactly when the stream begins with it. */
  lemma ReceiveIsInverse(s: seq<byte>, p: seq<byte>, rest: seq<byte>)
    ensures Receive(s) == Received(p, rest) <==> |p| <= MAX_PAYLOAD && s == Frame(p) + rest
  {
    hide Receive;
    hide Parts;
    hide Frame;
    PartsOfFrame(s, p, rest);
    ReceivedParts(s, p, rest);
  }

  /** Damage to at most four consecutive payload bytes of a frame is noticed, whatever follows it. */
  lemma DamagedPayloadIsMalformed(p: seq<byte>, q: seq<byte>, rest: seq<byte>, from: nat, width: nat)
    requires |p| == |q| <= MAX_PAYLOAD && p != q && width <= 4 && from + width <= |p|
    requires forall k :: 0 <= k < |p| && !(from <= k < from + width) ==> p[k] == q[k]
    ensures Receive(Header(|p|) + q + Tail(p) + rest) == Malformed
  {
    Persistence.PayloadBurst(p, q, from, width);
    var s := Header(|p|) + q + Tail(p) + rest;
    U32IsBytes(s[..4], MAGIC);
    U32IsBytes(s[5..9], |p|);
    U32IsBytes(s[9 + |p|..9 + |p| + 4], Persistence.Checksum(p));
    hide U32Bytes;
    hide Number;
    hide Persistence.Checksum;
    assert s[..4] == U32Bytes(MAGIC) && s[4] == VERSION && s[5..9] == U32Bytes(|p|);
    assert s[9..9 + |p|] == q && s[9 + |p|..9 + |p| + 4] == U32Bytes(Persistence.Checksum(p));
  }

  // ---- Sequences of messages ------------------------------------------------------------------

  /** A message that `send_frame` takes: its encoding fits one frame. */
  predicate Sendable(m: Protocol.Msg) { Protocol.InBounds(m) && |Protocol.Encode(m)| <= MAX_PAYLOAD }

  /** The frame bounds the message more tightly than the bounds of its parts do. */
  lemma SendableMeans(m: Protocol.Msg)
    ensures Sendable(m) <==> |m.s1| <= Protocol.MAX_STRING && |m.s2| <= Protocol.MAX_STRING
                             && |m.s1| + |m.s2| + |m.blob| + 45 <= MAX_PAYLOAD
  {
    Protocol.EncodedLength(m);
    hide Protocol.Encode;
  }

  /** The bytes of a sequence of messages, each encoded and framed. */
  function Wire(ms: seq<Protocol.Msg>): seq<byte>
    requires forall m :: m in ms ==> Sendable(m)
  {
    if ms == [] then [] else
      assert Sendable(ms[0]);
      Frame(Protocol.Encode(ms[0])) + Wire(ms[1..])
  }

  datatype Messages = Messages(list: seq<Protocol.Msg>, rest: seq<byte>)

  /** Receive and decode `n` messages, one after another. */
  function ReceiveAll(s: seq<byte>, n: nat): Option<Messages> {
    if n == 0 then Some(Messages([], s))
    else
      var r := Receive(s);
      if !r.Received? then None else
      var m := Protocol.Decode(r.payload);
      if m.None? then None else
      var more := ReceiveAll(r.rest, n - 1);
      if more.None? then None else Some(Messages([m.value] + more.value.list, more.value.rest))
  }

  /** Any sequence of sendable messages is received as the same sequence, and nothing after it is touched. */
  lemma {:induction false} WireRoundTrip(ms: seq<Protocol.Msg>, rest: seq<byte>)
    requires forall m :: m in ms ==> Sendable(m)
    ensures ReceiveAll(Wire(ms) + rest, |ms|) == Some(Messages(ms, rest))
    decreases |ms|
  {
    hide Receive;
    hide Frame;
    hide Protocol.Decode;
    hide Protocol.Encode;
    hide Protocol.InBounds;
    if ms == [] {
      assert Wire(ms) + rest == rest;
    } else {
      var m, later := ms[0], ms[1..];
      assert m in ms && ms == [m] + later;
      assert Wire(ms) + rest == Frame(Protocol.Encode(m)) + (Wire(later) + rest);
      ReceiveIsInverse(Wire(ms) + rest, Protocol.Encode(m), Wire(later) + rest);
      Protocol.DecodeIsInverse(Protocol.Encode(m), m);
      WireRoundTrip(later, rest);
    }
  }

  /** What is received as a sequence of messages was sent as that sequence: the wire form is unambiguous. */
  lemma {:induction false} ReceivedWasWired(s: seq<byte>, ms: seq<Protocol.Msg>, rest: seq<byte>)
    requires ReceiveAll(s, |ms|) == Some(Messages(ms, rest))
    ensures forall m :: m in ms ==> Sendable(m)
    ensures s == Wire(ms) + rest
    decreases |ms|
  {
    hide Receive;
    hide Frame;
    hide Protocol.Decode;
    hide Protocol.Encode;
    hide Protocol.InBounds;
    if ms == [] {
      assert Wire(ms) + rest == rest;
    } else {
      var r := Receive(s);
      var more := ReceiveAll(r.rest, |ms| - 1).value;
      var later := ms[1..];
      assert ms == [ms[0]] + more.list && later == more.list;
      ReceiveIsInverse(s, r.payload, r.rest);
      Protocol.DecodeIsInverse(r.payload, ms[0]);
      ReceivedWasWired(r.rest, later, rest);
      forall m | m in ms ensures Sendable(m) {
        assert m == ms[0] || m in later;
      }
      assert Wire(ms) + rest == Frame(Protocol.Encode(ms[0])) + (Wire(later) + rest);
    }
  }

  // ---- The socket -----------------------------------------------------------------------------

  type Chunk = b: seq<byte> | |b| > 0 witness [0]

  /** What a socket is about to deliver: pieces of at least one byte, interrupted calls, or an error. */
  datatype Arrival = Piece(bytes: Chunk) | Interrupted | Broken

  /** How a socket is about to take what is sent: so many bytes of the buffer, not now, or not at all. */
  datatype Acceptance = Takes(count: nat) | Busy | Refuses

  /** The bytes that can still be received, however they are split. */
  function Flow(arrivals: seq<Arrival>): seq<byte> {
    if arrivals == [] then []
    else
      match arrivals[0]
      case Piece(b) => b + Flow(arrivals[1..])
      case Interrupted => Flow(arrivals[1..])
      case Broken => []
  }

  datatype Recv = Got(bytes: Chunk) | Shutdown | Again | Error

  function Min(a: nat, b: nat): nat { if a <= b then a else b }

  /** The outcome of one `send` of `n` bytes; a socket that has nothing more to say refuses. */
  datatype Sending = Sending(count: nat, again: bool, rest: seq<Acceptance>)

  function Sends(acceptances: seq<Acceptance>, n: nat): Sending {
    if acceptances == [] then Sending(0, false, [])
    else
      match acceptances[0]
      case Takes(k) => Sending(Min(k, n), false, acceptances[1..])
      case Busy => Sending(0, true, acceptances[1..])
      case Refuses => Sending(0, false, acceptances)
  }

  /** How many bytes the socket takes before it first refuses; taking none is a refusal too. */
  function Room(acceptances: seq<Acceptance>): nat {
    if acceptances == [] then 0
    else
      match acceptances[0]
      case Takes(k) => if k == 0 then 0 else k + Room(acceptances[1..])
      case Busy => Room(acceptances[1..])
      case Refuses => 0
  }

  /** What is left to say for the socket after `n` bytes have been sent, or refused. */
  function After(acceptances: seq<Acceptance>, n: nat): seq<Acceptance> {
    if n == 0 || acceptances == [] then acceptances
    else
      match acceptances[0]
      case Takes(k) => if k == 0 then acceptances[1..] else After(acceptances[1..], n - Min(k, n))
      case Busy => After(acceptances[1..], n)
      case Refuses => acceptances
  }

  class Socket {
    var arrivals: seq<Arrival>
    var acceptances: seq<Acceptance>
    var sent: seq<byte>

    constructor (incoming: seq<Arrival>, outgoing: seq<Acceptance>)
      ensures arrivals == incoming && acceptances == outgoing && sent == []
    {
      arrivals, acceptances, sent := incoming, outgoing, [];
    }

    /** One `recv` of at most `n` bytes. */
    method Recv(n: nat) returns (r: Recv)
      requires n > 0
      modifies this`arrivals
      ensures r.Got? ==> |r.bytes| <= n && Flow(old(arrivals)) == r.bytes + Flow(arrivals)
      ensures r.Again? ==> Flow(arrivals) == Flow(old(arrivals)) && |arrivals| < |old(arrivals)|
      ensures r.Shutdown? || r.Error? ==> Flow(old(arrivals)) == [] == Flow(arrivals)
    {
      if arrivals == [] {
        return Shutdown;
      }
      match arrivals[0] {
        case Piece(b) =>
          if |b| <= n {
            arrivals := arrivals[1..];
            r := Got(b);
          } else {
            assert b == b[..n] + b[n..];
            arrivals := [Piece(b[n..])] + arrivals[1..];
            r := Got(b[..n]);
          }
        case Interrupted =>
          arrivals := arrivals[1..];
          r := Again;
        case Broken =>
          r := Error;
      }
    }

    /** One `send` of a buffer: how many bytes were taken, and whether a failure is worth a retry. */
    method Send(buf: seq<byte>) returns (count: nat, again: bool)
      requires buf != []
      modifies this`acceptances, this`sent
      ensures Sending(count, again, acceptances) == Sends(old(acceptances), |buf|)
      ensures count <= |buf| && sent == old(sent) + buf[..count]
    {
      if acceptances == [] {
        return 0, false;
      }
      var next := acceptances[0];
      match next {
        case Takes(k) =>
          count := if k <= |buf| then k else |buf|;
          again := false;
          sent := sent + buf[..count];
          acceptances := acceptances[1..];
        case Busy =>
          acceptances := acceptances[1..];
          return 0, true;
        case Refuses =>
          return 0, false;
      }
    }
  }

  /** `recv_all`: exactly `len` bytes, over as many calls as it takes; or failure, when fewer are to come. */
  method RecvAll(socket: Socket, len: nat) returns (ok: bool, out: seq<byte>)
    modifies socket`arrivals
    ensures ok <==> |Flow(old(socket.arrivals))| >= len
    ensures ok ==> out == Flow(old(socket.arrivals))[..len] && Flow(socket.arrivals) == Flow(old(socket.arrivals))[len..]
  {
    out := [];
    ghost var all := Flow(socket.arrivals);
    while |out| < len
      invariant |out| <= len
      invariant all == out + Flow(socket.arrivals)
      decreases len - |out|, |socket.arrivals|
    {
      var r := socket.Recv(len - |out|);
      match r {
        case Got(bytes) => out := out + bytes;
        case Again =>
        case _ => return false, out;
      }
    }
    ok := true;
  }

  lemma PrefixGrows(buf: seq<byte>, done: nat, count: nat)
    requires done + count <= |buf|
    ensures buf[..done] + buf[done..][..count] == buf[..done + count]
  {
  }

  /** `send_all`: over as many calls as it takes, the whole buffer, or as much of it as there is room for. */
  method SendAll(socket: Socket, buf: seq<byte>) returns (ok: bool)
    modifies socket`acceptances, socket`sent
    ensures ok <==> |buf| <= Room(old(socket.acceptances))
    ensures socket.sent == old(socket.sent) + buf[..Min(|buf|, Room(old(socket.acceptances)))]
    ensures socket.acceptances == After(old(socket.acceptances), |buf|)
  {
    ghost var room, rest := Room(socket.acceptances), After(socket.acceptances, |buf|);
    var done := 0;
    while done < |buf|
      invariant 0 <= done <= |buf|
      invariant socket.sent == old(socket.sent) + buf[..done]
      invariant Min(|buf|, room) == done + Min(|buf| - done, Room(socket.acceptances))
      invariant rest == After(socket.acceptances, |buf| - done)
      decreases |buf| - done, |socket.acceptances|
    {
      var count, again := socket.Send(buf[done..]);
      PrefixGrows(buf, done, count);
      if count == 0 && !again {
        return false;
      }
      done := done + count;
    }
    assert buf[..done] == buf;
    ok := true;
  }

  // ---- Frames over a socket -------------------------------------------------------------------

  datatype Delivery = Delivered(payload: seq<byte>) | NoFrame | BadFrame

  /** `recv_frame`: false at the end of the stream, an exception for a malformed frame. */
  method RecvFrame(socket: Socket) returns (d: Delivery)
    modifies socket`arrivals
    ensures var r := Receive(Flow(old(socket.arrivals)));
            && (r.Received? <==> d.Delivered?)
            && (r.Received? ==> d.payload == r.payload && Flow(socket.arrivals) == r.rest)
            && (r.Closed? <==> d.NoFrame?)
            && (r.Malformed? <==> d.BadFrame?)
  {
    ghost var all := Flow(socket.arrivals);
    var ok, header := RecvAll(socket, 9);
    if !ok {
      return NoFrame;
    }
    assert header[..4] == all[..4] && header[5..9] == all[5..9];
    var magic := Protocol.GetNumberAt(header, 0, 4);
    var len := Protocol.GetNumberAt(header, 5, 4);
    assert header[0..4] == header[..4];
    hide Number;
    hide Persistence.Checksum;
    if magic != MAGIC || header[4] != VERSION || len > MAX_PAYLOAD {
      return BadFrame;
    }
    var got, payload := RecvAll(socket, len);
    if !got {
      return NoFrame;
    }
    assert payload == all[9..9 + len] && Flow(socket.arrivals) == all[9 + len..];
    var tailed, tail := RecvAll(socket, 4);
    if !tailed {
      return NoFrame;
    }
    assert tail == all[9 + len..9 + len + 4] && Flow(socket.arrivals) == all[9 + len + 4..];
    var expected := Protocol.GetNumberAt(tail, 0, 4);
    assert tail[0..4] == tail;
    var crc := Crc.Crc32c(payload, 0);
    ChecksumValue(payload, crc);
    if crc as int != expected {
      return BadFrame;
    }
    d := Delivered(payload);
  }

  lemma ChecksumValue(p: seq<byte>, crc: bv32)
    requires crc == Crc.Checksum(p, 0)
    ensures crc as int == Persistence.Checksum(p)
  {
  }

  /** How many bytes of a frame the socket takes in the three writes of `send_frame`. */
  function FrameRoom(acceptances: seq<Acceptance>, payload: seq<byte>): nat {
    var afterHeader := After(acceptances, 9);
    var afterPayload := After(afterHeader, |payload|);
    if Room(acceptances) < 9 then Room(acceptances)
    else if Room(afterHeader) < |payload| then 9 + Room(afterHeader)
    else 9 + |payload| + Min(4, Room(afterPayload))
  }

  lemma {:induction false} AfterKeepsCalls(acceptances: seq<Acceptance>, n: nat)
    ensures Calls(acceptances) <= Room(acceptances)
    ensures Calls(acceptances) <= n + Calls(After(acceptances, n))
    decreases |acceptances|
  {
    if acceptances != [] {
      AfterKeepsCalls(acceptances[1..], n);
      if acceptances[0].Takes? && acceptances[0].count > 0 {
        AfterKeepsCalls(acceptances[1..], n - Min(acceptances[0].count, n));
      }
    }
  }

  /** How many calls take at least one byte before the first refusal. */
  function Calls(acceptances: seq<Acceptance>): nat {
    if acceptances == [] then 0
    else
      match acceptances[0]
      case Takes(k) => if k == 0 then 0 else 1 + Calls(acceptances[1..])
      case Busy => Calls(acceptances[1..])
      case Refuses => 0
  }

  /** A frame gets through to any socket that goes on taking something, however little and however often it is busy. */
  lemma PatientSocketTakesFrame(acceptances: seq<Acceptance>, payload: seq<byte>)
    requires |payload| <= MAX_PAYLOAD && |Frame(payload)| <= Calls(acceptances)
    ensures FrameRoom(acceptances, payload) == |Frame(payload)|
  {
    AfterKeepsCalls(acceptances, 9);
    AfterKeepsCalls(After(acceptances, 9), |payload|);
    AfterKeepsCalls(After(After(acceptances, 9), |payload|), 4);
  }

  lemma SliceOfParts(header: seq<byte>, payload: seq<byte>, tail: seq<byte>, k: nat)
    requires k <= |header + payload + tail|
    ensures (header + payload + tail)[..k] ==
              if k <= |header| then header[..k]
              else if k <= |header| + |payload| then header + payload[..k - |header|]
              else header + payload + tail[..k - |header| - |payload|]
  {
  }

  /** The three writes of `send_frame`; an empty payload is not written at all. */
  method SendParts(socket: Socket, header: seq<byte>, payload: seq<byte>, tail: seq<byte>) returns (ok: bool)
    requires |header| == 9 && |tail| == 4
    modifies socket`acceptances, socket`sent
    ensures ok <==> FrameRoom(old(socket.acceptances), payload) == |header + payload + tail|
    ensures FrameRoom(old(socket.acceptances), payload) <= |header + payload + tail|
    ensures socket.sent == old(socket.sent) + (header + payload + tail)[..FrameRoom(old(socket.acceptances), payload)]
  {
    ghost var before, acceptances := socket.sent, socket.acceptances;
    SliceOfParts(header, payload, tail, FrameRoom(acceptances, payload));
    ok := SendAll(socket, header);
    if !ok {
      return;
    }
    assert header[..9] == header && socket.sent == before + header;
    if payload != [] {
      ok := SendAll(socket, payload);
      if !ok {
        assert before + header + payload[..Room(After(acceptances, 9))] == before + (header + payload[..Room(After(acceptances, 9))]);
        return;
      }
      assert payload[..|payload|] == payload;
    }
    assert socket.sent == before + (header + payload);
    assert socket.acceptances == After(After(acceptances, 9), |payload|);
    ok := SendAll(socket, tail);
    ghost var k := Min(4, Room(After(After(acceptances, 9), |payload|)));
    assert before + (header + payload) + tail[..k] == before + (header + payload + tail[..k]);
  }

  /** `send_frame`: refused when too large; otherwise as much of the frame as the socket takes. */
  method SendFrame(socket: Socket, payload: seq<byte>) returns (ok: bool)
    modifies socket`acceptances, socket`sent
    ensures |payload| > MAX_PAYLOAD ==> !ok && socket.sent == old(socket.sent)
    ensures |payload| <= MAX_PAYLOAD ==>
              var room := FrameRoom(old(socket.acceptances), payload);
              && (ok <==> room == |Frame(payload)|)
              && room <= |Frame(payload)| && socket.sent == old(socket.sent) + Frame(payload)[..room]
  {
    hide BigEndian;
    hide Persistence.Checksum;
    hide FrameRoom;
    if |payload| > MAX_PAYLOAD {
      return false;
    }
    var w := new ByteWriter();
    w.PutU32(MAGIC);
    w.PutU8(VERSION);
    w.PutU32(|payload|);
    var crc := Crc.Crc32c(payload, 0);
    ChecksumValue(payload, crc);
    var t := new ByteWriter();
    t.PutU32(crc as int);
    assert w.buf == Header(|payload|) && t.buf == Tail(payload);
    ok := SendParts(socket, w.buf, payload, t.buf);
  }

  // ---- Messages over a socket -----------------------------------------------------------------

  method SendMessage(socket: Socket, m: Protocol.Msg) returns (ok: bool)
    modifies socket`acceptances, socket`sent
    ensures |Protocol.Encode(m)| > MAX_PAYLOAD ==> !ok && socket.sent == old(socket.sent)
    ensures |Protocol.Encode(m)| <= MAX_PAYLOAD ==>
              (ok <==> FrameRoom(old(socket.acceptances), Protocol.Encode(m)) == |Frame(Protocol.Encode(m))|)
    ensures ok ==> socket.sent == old(socket.sent) + Frame(Protocol.Encode(m))
  {
    hide Protocol.Encode;
    hide FrameRoom;
    hide Frame;
    var payload := Protocol.EncodeMessage(m);
    ok := SendFrame(socket, payload);
    if ok {
      assert Frame(payload)[..|Frame(payload)|] == Frame(payload);
    }
  }

  /** Receive a frame and decode it; a malformed frame or message yields none. */
  method ReceiveMessage(socket: Socket) returns (m: Option<Protocol.Msg>)
    modifies socket`arrivals
    ensures var r := Receive(Flow(old(socket.arrivals)));
            && (r.Received? ==> m == Protocol.Decode(r.payload) && Flow(socket.arrivals) == r.rest)
            && (!r.Received? ==> m == None)
  {
    hide Receive;
    hide Protocol.Decode;
    var d := RecvFrame(socket);
    if !d.Delivered? {
      return None;
    }
    m := Protocol.DecodeMessage(d.payload);
  }

  /**
   Receiving messages one after another depends only on the bytes that arrive: with `WireRoundTrip`, a
   sequence of messages is received as sent for every way in which the stream splits into pieces.
   */
  method ReceiveMessages(socket: Socket, n: nat) returns (ok: bool, ms: seq<Protocol.Msg>)
    modifies socket`arrivals
    ensures var r := ReceiveAll(Flow(old(socket.arrivals)), n);
            && (ok <==> r.Some?)
            && (ok ==> Messages(ms, Flow(socket.arrivals)) == r.value)
  {
    hide Receive;
    hide Protocol.Decode;
    ms := [];
    var i := 0;
    ghost var all := ReceiveAll(Flow(socket.arrivals), n);
    assert all.Some? ==> [] + all.value.list == all.value.list;
    while i < n
      invariant 0 <= i <= n
      invariant all == Prepended(ms, ReceiveAll(Flow(socket.arrivals), n - i))
    {
      ghost var now := ReceiveAll(Flow(socket.arrivals), n - i);
      var m := ReceiveMessage(socket);
      if m.None? {
        return false, ms;
      }
      assert now.Some? ==> ms + now.value.list == (ms + [m.value]) + now.value.list[1..];
      ms := ms + [m.value];
      i := i + 1;
    }
    assert ms + [] == ms;
    ok := true;
  }

  function Prepended(ms: seq<Protocol.Msg>, r: Option<Messages>): Option<Messages> {
    if r.None? then None else Some(Messages(ms + r.value.list, r.value.rest))
  }
}
