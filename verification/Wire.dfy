// The peer wire format (src/runtime/managers/peer_manager.cpp, following "peer
// protocol" and "peer messages" of BEP 3): building and framing messages.
module Wire {
  import opened Types

  const MSG_CHOKE: Byte := 0
  const MSG_UNCHOKE: Byte := 1
  const MSG_INTERESTED: Byte := 2
  const MSG_NOT_INTERESTED: Byte := 3
  const MSG_HAVE: Byte := 4
  const MSG_BITFIELD: Byte := 5
  const MSG_REQUEST: Byte := 6
  const MSG_PIECE: Byte := 7
  const MSG_CANCEL: Byte := 8

  // a longer length prefix is a protocol error
  const MAX_FRAME: nat := 0x10_0000

  // "BitTorrent protocol"
  const PROTOCOL: Bytes := [66, 105, 116, 84, 111, 114, 114, 101, 110, 116, 32, 112, 114, 111, 116, 111, 99, 111, 108]

  // ----- integers on the wire -----

  // htonl: the low 32 bits, most significant byte first
  function Be32(n: nat): (b: Bytes)
    ensures |b| == 4
  {
    [n / 0x100_0000 % 256, n / 0x1_0000 % 256, n / 0x100 % 256, n % 256]
  }

  function ReadBe32(b: Bytes): (n: nat)
    requires |b| >= 4
    ensures n < TWO_32
  {
    var b0: int, b1: int, b2: int, b3: int := b[0], b[1], b[2], b[3];
    b0 * 0x100_0000 + b1 * 0x1_0000 + b2 * 0x100 + b3
  }

  lemma Be32RoundTrip(n: nat, rest: Bytes)
    ensures n < TWO_32 ==> ReadBe32(Be32(n) + rest) == n
  {
    var h := n / 0x1_0000;
    assert n / 0x100_0000 == h / 0x100;
    assert n / 0x100 / 0x100 == h;
  }

  // the last byte counts ones, and the three before it count by 256
  lemma BigEndian(b: Bytes)
    requires |b| == 4
    ensures ReadBe32(b) == 256 * ReadBe32([0] + b[..3]) + b[3]
    ensures Be32(ReadBe32(b)) == b
  {
    var b0: int, b1: int, b2: int, b3: int := b[0], b[1], b[2], b[3];
    var high := b0 * 0x100 + b1;
    assert ReadBe32(b) == high * 0x1_0000 + b2 * 0x100 + b3;
    assert ReadBe32(b) / 0x1_0000 == high && ReadBe32(b) / 0x100 == high * 0x100 + b2;
    assert ReadBe32(b) / 0x100_0000 == b0;
  }

  // ----- outgoing messages -----

  datatype Msg =
    | Handshake(infoHash: Bytes, peerId: Bytes)
    | KeepAlive
    | Control(id: Byte)
    | Have(index: nat)
    | BitfieldMsg(bytes: Bytes)
    | RequestMsg(req: BlockRequest)
    | PieceMsg(piece: nat, begin: nat, data: Bytes)

  predicate WfMsg(m: Msg)
  {
    match m
    case Handshake(hash, id) => |hash| == 20 && |id| == 20
    case Control(id) => id <= MSG_NOT_INTERESTED
    case PieceMsg(i, begin, _) => i < TWO_32 && begin < TWO_32
    case _ => true
  }

  function BuildMessage(id: Byte, payload: Bytes): Bytes
  {
    Be32(1 + |payload|) + [id] + payload
  }

  function Encode(m: Msg): Bytes
  {
    match m
    case Handshake(hash, id) => [19] + PROTOCOL + [0, 0, 0, 0, 0, 0, 0, 0] + hash + id
    case KeepAlive => [0, 0, 0, 0]
    case Control(id) => BuildMessage(id, [])
    case Have(i) => BuildMessage(MSG_HAVE, Be32(i))
    case BitfieldMsg(bytes) => BuildMessage(MSG_BITFIELD, bytes)
    case RequestMsg(r) => BuildMessage(MSG_REQUEST, Be32(r.piece) + Be32(r.offset) + Be32(r.length))
    case PieceMsg(i, begin, data) => BuildMessage(MSG_PIECE, Be32(i) + Be32(begin) + data)
  }

  function Size(m: Msg): (n: nat)
    ensures n >= 4
  {
    match m
    case Handshake(hash, id) => 28 + |hash| + |id|
    case KeepAlive => 4
    case Control(_) => 5
    case Have(_) => 9
    case BitfieldMsg(bytes) => 5 + |bytes|
    case RequestMsg(_) => 17
    case PieceMsg(_, _, data) => 13 + |data|
  }

  lemma EncodeSize(m: Msg)
    ensures |Encode(m)| == Size(m)
  {
  }

  predicate IsPiece(m: Msg, piece: nat, begin: nat, length: nat)
  {
    m.PieceMsg? && m.piece == piece && m.begin == begin && |m.data| == length
  }

  // the test remove_queued_piece makes on the bytes of a queued message
  predicate BytesNamePiece(m: Bytes, piece: nat, begin: nat, length: nat)
  {
    && |m| == 13 + length
    && m[4] == MSG_PIECE
    && ReadBe32(m[5..]) == piece
    && ReadBe32(m[9..]) == begin
  }

  // The byte test recognises the named piece message and nothing else: no
  // handshake, keep-alive, have, bitfield or request can be taken for it.
  lemma ByteTestExact(m: Msg, piece: nat, begin: nat, length: nat)
    requires WfMsg(m)
    ensures BytesNamePiece(Encode(m), piece, begin, length) <==> IsPiece(m, piece, begin, length)
  {
    var e := Encode(m);
    EncodeSize(m);
    match m
    case Handshake(hash, id) =>
      assert e[4] == 84;
    case KeepAlive =>
    case PieceMsg(i, b, data) => PieceFields(i, b, data);
    case _ =>
  }

  lemma PieceFields(i: nat, b: nat, data: Bytes)
    requires i < TWO_32 && b < TWO_32
    ensures var e := Encode(PieceMsg(i, b, data));
            |e| == 13 + |data| && e[4] == MSG_PIECE && ReadBe32(e[5..]) == i && ReadBe32(e[9..]) == b
  {
    hide Be32, ReadBe32;
    var e := Encode(PieceMsg(i, b, data));
    assert e[5..] == Be32(i) + (Be32(b) + data);
    assert e[9..] == Be32(b) + data;
    Be32RoundTrip(i, Be32(b) + data);
    Be32RoundTrip(b, data);
  }

  // ----- incoming frames -----

  datatype Extracted = NeedMore | Absurd | Got(msg: Bytes, rest: Bytes)

  function ExtractMessage(buf: Bytes): (r: Extracted)
    ensures r.Got? ==> |r.rest| < |buf|
  {
    if |buf| < 4 then NeedMore
    else
      var len := ReadBe32(buf);
      if len > MAX_FRAME then Absurd
      else if |buf| < 4 + len then NeedMore
      else Got(buf[4..4 + len], buf[4 + len..])
  }

  // the messages at the front of a stream, what is left, and whether a bad length stopped it
  datatype Drained = Drained(msgs: seq<Bytes>, rest: Bytes, failed: bool)

  function Drain(buf: Bytes): Drained
    decreases |buf|
  {
    match ExtractMessage(buf)
    case NeedMore => Drained([], buf, false)
    case Absurd => Drained([], buf, true)
    case Got(m, rest) => After([m], Drain(rest))
  }

  // extract_message inverts build_message, up to the length limit.
  lemma ExtractBuilt(id: Byte, payload: Bytes, rest: Bytes)
    requires 1 + |payload| < TWO_32
    ensures 1 + |payload| <= MAX_FRAME ==> ExtractMessage(BuildMessage(id, payload) + rest) == Got([id] + payload, rest)
    ensures 1 + |payload| > MAX_FRAME ==> ExtractMessage(BuildMessage(id, payload) + rest) == Absurd
  {
    var n := 1 + |payload|;
    var buf := BuildMessage(id, payload) + rest;
    assert buf == Be32(n) + ([id] + payload + rest);
    Be32RoundTrip(n, [id] + payload + rest);
    if n <= MAX_FRAME {
      assert buf[4..4 + n] == [id] + payload;
      assert buf[4 + n..] == rest;
    }
  }

  function Frame(body: (Byte, Bytes)): Bytes
  {
    BuildMessage(body.0, body.1)
  }

  function Frames(bodies: seq<(Byte, Bytes)>): Bytes
  {
    if bodies == [] then [] else Frame(bodies[0]) + Frames(bodies[1..])
  }

  // A stream of built messages is read back as the same messages, in order.
  lemma {:induction false} DrainBuilt(bodies: seq<(Byte, Bytes)>)
    requires forall k :: 0 <= k < |bodies| ==> 1 + |bodies[k].1| <= MAX_FRAME
    ensures var d := Drain(Frames(bodies));
            && !d.failed && d.rest == [] && |d.msgs| == |bodies|
            && (forall k :: 0 <= k < |bodies| ==> d.msgs[k] == [bodies[k].0] + bodies[k].1)
  {
    if bodies == [] {
    } else {
      ExtractBuilt(bodies[0].0, bodies[0].1, Frames(bodies[1..]));
      DrainBuilt(bodies[1..]);
    }
  }

  lemma ExtractAppend(buf: Bytes, more: Bytes)
    ensures ExtractMessage(buf).Absurd? ==> ExtractMessage(buf + more).Absurd?
    ensures ExtractMessage(buf).Got? ==>
              ExtractMessage(buf + more) == Got(ExtractMessage(buf).msg, ExtractMessage(buf).rest + more)
  {
    if |buf| >= 4 {
      assert ReadBe32(buf + more) == ReadBe32(buf);
      var n := 4 + ReadBe32(buf);
      if n <= |buf| {
        assert (buf + more)[4..n] == buf[4..n];
        assert (buf + more)[n..] == buf[n..] + more;
      }
    }
  }

  function Then(d: Drained, more: Bytes): Drained
  {
    if d.failed then d.(rest := d.rest + more)
    else After(d.msgs, Drain(d.rest + more))
  }

  // Bytes that arrive later do not change how earlier ones were read.
  lemma {:induction false} DrainAppend(buf: Bytes, more: Bytes)
    ensures Drain(buf + more) == Then(Drain(buf), more)
    decreases |buf|
  {
    ExtractAppend(buf, more);
    match ExtractMessage(buf)
    case NeedMore =>
      assert [] + Drain(buf + more).msgs == Drain(buf + more).msgs;
    case Absurd =>
    case Got(m, rest) =>
      DrainAppend(rest, more);
      ThenCons(m, Drain(rest), more);
  }

  function After(before: seq<Bytes>, d: Drained): Drained
  {
    d.(msgs := before + d.msgs)
  }

  lemma ThenCons(m: Bytes, d: Drained, more: Bytes)
    ensures Then(After([m], d), more) == After([m], Then(d, more))
  {
    if !d.failed {
      var e := Drain(d.rest + more);
      assert [m] + (d.msgs + e.msgs) == [m] + d.msgs + e.msgs;
    }
  }

  function Join(chunks: seq<Bytes>): Bytes
  {
    if chunks == [] then [] else chunks[0] + Join(chunks[1..])
  }

  // one connection's reader: buffered bytes, messages read so far, whether it
  // failed; after a failure the connection is dropped, so later chunks stay unread
  datatype Reader = Reader(buffer: Bytes, msgs: seq<Bytes>, failed: bool, unread: Bytes)

  function Receive(r: Reader, chunk: Bytes): Reader
  {
    if r.failed then r.(unread := r.unread + chunk)
    else var d := Drain(r.buffer + chunk); Reader(d.rest, r.msgs + d.msgs, d.failed, [])
  }

  function ReceiveAll(r: Reader, chunks: seq<Bytes>): Reader
    decreases |chunks|
  {
    if chunks == [] then r else ReceiveAll(Receive(r, chunks[0]), chunks[1..])
  }

  lemma {:induction false} FailedStaysUnread(r: Reader, chunks: seq<Bytes>)
    requires r.failed
    ensures ReceiveAll(r, chunks) == r.(unread := r.unread + Join(chunks))
    decreases |chunks|
  {
    if chunks == [] {
      assert r.unread + [] == r.unread;
    } else {
      FailedStaysUnread(Receive(r, chunks[0]), chunks[1..]);
      assert r.unread + chunks[0] + Join(chunks[1..]) == r.unread + Join(chunks);
    }
  }

  // what the reader amounts to: messages read, bytes not turned into messages
  function Outcome(x: Reader): Drained
  {
    Drained(x.msgs, x.buffer + (if x.failed then x.unread else []), x.failed)
  }

  // one more chunk, given what the following ones will come to
  lemma ReceiveStep(r: Reader, c: Bytes, more: Bytes, x: Reader)
    requires !r.failed
    requires var r' := Receive(r, c);
             if r'.failed then x == r'.(unread := r'.unread + more)
             else Outcome(x) == After(r'.msgs, Drain(r'.buffer + more))
    ensures Outcome(x) == After(r.msgs, Drain(r.buffer + c + more))
  {
    var d := Drain(r.buffer + c);
    DrainAppend(r.buffer + c, more);
    if d.failed {
      assert [] + more == more;
    } else {
      AfterAfter(r.msgs, d.msgs, Drain(d.rest + more));
    }
  }

  lemma {:induction false} ReceiveAllIsDrain(r: Reader, chunks: seq<Bytes>)
    requires !r.failed && Drain(r.buffer) == Drained([], r.buffer, false)
    ensures Outcome(ReceiveAll(r, chunks)) == After(r.msgs, Drain(r.buffer + Join(chunks)))
    decreases |chunks|
  {
    hide Drain;
    if chunks == [] {
      assert r.buffer + [] == r.buffer && r.msgs + [] == r.msgs;
    } else {
      var c, cs := chunks[0], chunks[1..];
      var r' := Receive(r, c);
      if r'.failed {
        FailedStaysUnread(r', cs);
      } else {
        DrainRest(r.buffer + c);
        ReceiveAllIsDrain(r', cs);
      }
      ReceiveStep(r, c, Join(cs), ReceiveAll(r', cs));
      assert r.buffer + c + Join(cs) == r.buffer + Join(chunks);
    }
  }

  lemma AfterAfter(a: seq<Bytes>, b: seq<Bytes>, d: Drained)
    ensures After(a + b, d) == After(a, After(b, d))
  {
    assert a + b + d.msgs == a + (b + d.msgs);
  }

  // what a successful drain leaves holds no whole message
  lemma {:induction false} DrainRest(buf: Bytes)
    ensures !Drain(buf).failed ==> Drain(Drain(buf).rest) == Drained([], Drain(buf).rest, false)
    decreases |buf|
  {
    match ExtractMessage(buf)
    case Got(_, rest) => DrainRest(rest);
    case _ =>
  }

  // However the stream is cut into chunks, the same messages come out, the same
  // bytes are left over and a bad length is noticed at the same place.
  lemma ChunkingIrrelevant(chunks: seq<Bytes>)
    ensures Outcome(ReceiveAll(Reader([], [], false, []), chunks)) == Drain(Join(chunks))
  {
    ReceiveAllIsDrain(Reader([], [], false, []), chunks);
    assert [] + Join(chunks) == Join(chunks);
    assert [] + Drain(Join(chunks)).msgs == Drain(Join(chunks)).msgs;
  }

  // the read path of handle_events
  class ReadBuffer {
    var buffer: Bytes

    constructor ()
      ensures buffer == []
    {
      buffer := [];
    }

    method Feed(chunk: Bytes) returns (msgs: seq<Bytes>, failed: bool)
      modifies this
      ensures Drained(msgs, buffer, failed) == Drain(old(buffer) + chunk)
    {
      buffer := buffer + chunk;
      msgs, failed := [], false;
      ghost var all := buffer;
      while true
        invariant Drain(all) == Drained(msgs + Drain(buffer).msgs, Drain(buffer).rest, Drain(buffer).failed)
        decreases |buffer|
      {
        if |buffer| < 4 { break; }
        var len := ReadBe32(buffer);
        if len > MAX_FRAME { failed := true; break; }
        if |buffer| < 4 + len { break; }
        var m := buffer[4..4 + len];
        assert msgs + ([m] + Drain(buffer[4 + len..]).msgs) == msgs + [m] + Drain(buffer[4 + len..]).msgs;
        msgs := msgs + [m];
        buffer := buffer[4 + len..];
      }
      assert msgs + [] == msgs;
    }
  }
}
