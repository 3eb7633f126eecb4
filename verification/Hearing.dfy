// Two clients of this kind: what the other one understands of the bytes we send.
module Hearing {
  import opened Types
  import opened Torrents
  import opened Wire
  import opened Bitfields
  import opened Swarms
  import opened Engine
  import opened Invariants
  import opened Runs
  import opened Conversations
  import opened Speech
  import opened Serving
  import opened Streams
  import W = WriteQueues
  import P = Pieces

  // ----- single messages -----

  // fields of 32 bits, and messages only a connection sends
  predicate Sendable(m: Msg)
  {
    match m
    case Handshake(_, _) => false
    case Control(id) => id <= 3
    case Have(i) => i < TWO_32
    case RequestMsg(r) => r.piece < TWO_32 && r.offset < TWO_32 && r.length < TWO_32
    case PieceMsg(i, begin, _) => i < TWO_32 && begin < TWO_32
    case _ => true
  }

  // a message as the client's own readers take it apart
  function Decode(body: Bytes): Option<Msg>
  {
    if body == [] then Some(KeepAlive)
    else
      var id, payload := body[0], body[1..];
      if id <= 3 then if payload == [] then Some(Control(id)) else None
      else if id == 4 then if |payload| == 4 then Some(Have(ReadBe32(payload))) else None
      else if id == 5 then Some(BitfieldMsg(payload))
      else if id == 6 then if |payload| == 12 then Some(RequestMsg(TripleOf(payload))) else None
      else if id == 7 then
        if |payload| >= 8 then var b := BlockOf(payload); Some(PieceMsg(b.piece, b.offset, b.data)) else None
      else None
  }

  lemma RequestBody(r: BlockRequest)
    ensures Body(RequestMsg(r)) == Triple(6, r)
  {
    hide Be32;
    var payload := Be32(r.piece) + Be32(r.offset) + Be32(r.length);
    assert payload == Be32(r.piece) + (Be32(r.offset) + Be32(r.length));
    assert BuildMessage(6, payload)[4..] == [6] + payload;
  }

  lemma RequestReads(r: BlockRequest)
    requires Sendable(RequestMsg(r))
    ensures |Triple(6, r)| == 13 && Triple(6, r)[0] == 6 && TripleOf(Triple(6, r)[1..]) == r
  {
    hide Be32, ReadBe32;
    var body, rest := Be32(r.piece) + (Be32(r.offset) + Be32(r.length)), Be32(r.offset) + Be32(r.length);
    assert Triple(6, r)[1..] == body;
    assert body[4..] == rest && body[8..] == Be32(r.length) + [];
    Be32RoundTrip(r.piece, rest);
    Be32RoundTrip(r.offset, Be32(r.length));
    Be32RoundTrip(r.length, []);
  }

  lemma PieceReads(i: nat, begin: nat, data: Bytes)
    requires i < TWO_32 && begin < TWO_32
    ensures var body := Body(PieceMsg(i, begin, data));
            |body| >= 9 && body[0] == 7 && BlockOf(body[1..]) == Block(i, begin, data)
  {
    hide Be32, ReadBe32;
    var payload := Be32(i) + Be32(begin) + data;
    assert BuildMessage(7, payload)[4..] == [7] + payload;
    assert ([7] + payload)[1..] == Be32(i) + (Be32(begin) + data);
    assert payload == Be32(i) + (Be32(begin) + data) && payload[4..] == Be32(begin) + data && payload[8..] == data;
    Be32RoundTrip(i, Be32(begin) + data);
    Be32RoundTrip(begin, data);
  }

  lemma HaveReads(i: nat)
    requires i < TWO_32
    ensures var body := Body(Have(i)); |body| == 5 && body[0] == 4 && ReadBe32(body[1..]) == i
  {
    hide Be32, ReadBe32;
    assert BuildMessage(4, Be32(i))[4..] == [4] + Be32(i);
    assert ([4] + Be32(i))[1..] == Be32(i) + [];
    Be32RoundTrip(i, []);
  }

  lemma BitfieldReads(bytes: Bytes)
    ensures var body := Body(BitfieldMsg(bytes)); body != [] && body[0] == 5 && body[1..] == bytes
  {
    hide Be32;
    assert BuildMessage(5, bytes)[4..] == [5] + bytes;
  }

  lemma ControlReads(id: Byte)
    ensures Body(Control(id)) == [id] && Body(KeepAlive) == []
  {
    hide Be32;
    assert BuildMessage(id, [])[4..] == [id];
  }

  // Whatever is sent, the client's own readers get it back from the body of the
  // frame: each field from its place, and each kind of message from its number.
  lemma DecodesBody(m: Msg)
    requires Sendable(m)
    ensures Decode(Body(m)) == Some(m)
    ensures m.RequestMsg? ==> Body(m) == Triple(6, m.req)
    ensures m.Control? ==> Body(m) == [m.id]
  {
    hide Body, Triple, BlockOf, TripleOf, ReadBe32;
    match m
    case KeepAlive => ControlReads(0);
    case Control(id) => ControlReads(id);
    case Have(i) => HaveReads(i);
    case BitfieldMsg(bytes) => BitfieldReads(bytes);
    case RequestMsg(r) =>
      RequestBody(r);
      RequestReads(r);
    case PieceMsg(i, begin, data) => PieceReads(i, begin, data);
  }

  // ----- what we may say -----

  // the messages of a stream: no choke, no not-interested, no cancel; requests
  // ask for blocks of the torrent, and blocks are blocks of it
  ghost predicate Orderly(t: Torrent, m: Msg)
  {
    match m
    case Handshake(_, _) => true
    case KeepAlive => true
    case Control(id) => id == 1 || id == 2
    case Have(_) => true
    case BitfieldMsg(_) => true
    case RequestMsg(r) => Askable(r)
    case PieceMsg(i, begin, _) => i < TWO_32 && begin < TWO_32
  }

  lemma SaidOrderly(t: Torrent, x: State, a: Action, y: State, p: nat, m: Msg)
    requires Shaped(t, x.s) && Next(t, x, a, y) && m in Said(t, x, a, y, p)
    ensures Orderly(t, m)
  {
    hide Dispatch, HandleMessage, Pack, P.Wf;
    if a.Schedule? { PickAskable(t, x.s, a.peer, a.pieces, a.req); }
  }

  lemma PickAskable(t: Torrent, s: Session, p: nat, pieces: P.Pieces, req: BlockRequest)
    requires Shaped(t, s) && p in s.swarm.conns
    requires P.PickStep(t, s.pieces, s.swarm.conns[p].has, s.swarm.frequency, p, pieces, Some(req))
    ensures Askable(req)
  {
    if P.Offers(s.pieces, s.swarm.conns[p].has, p, req.piece) {
      BlockAskable(t, req.piece, req.offset / BLOCK_SIZE);
    } else {
      BlockAskable(t, req.piece, 0);
    }
  }

  lemma {:induction false} ScriptOrderly(t: Torrent, xs: seq<State>, acts: seq<Action>, k: nat, p: nat, m: Msg)
    requires IsRun(t, xs, acts) && k < |xs| && m in Script(t, xs, acts, p, k)
    ensures Orderly(t, m)
    decreases k
  {
    hide Next, Said, Init, Orderly;
    if k > 0 {
      assert Moves(t, xs[k - 1], acts[k - 1], xs[k - 1 + 1]);
      if m in Said(t, xs[k - 1], acts[k - 1], xs[k], p) {
        SaidOrderly(t, xs[k - 1], acts[k - 1], xs[k], p, m);
      } else {
        ScriptOrderly(t, xs, acts, k - 1, p, m);
      }
    }
  }

  lemma {:induction false} InPlain(log: seq<Msg>, m: Msg)
    requires m in log && !m.PieceMsg?
    ensures m in Plain(log)
  {
    if m != log[|log| - 1] {
      assert log == log[..|log| - 1] + [log[|log| - 1]];
      InPlain(log[..|log| - 1], m);
    }
  }

  lemma BlockOrderly(t: Torrent, x: State, p: nat, m: Msg)
    requires Inv(t, x) && p in x.s.swarm.conns && m in LogOf(x, p) && m.PieceMsg?
    ensures Orderly(t, m)
  {
    assert ConnOk(t, x.s, DeliveredTo(x.h, p), p, x.s.swarm.conns[p]);
    assert ServedOk(t, x.s.pieces.have, x.s.disk, m);
  }

  lemma LogOrderly(t: Torrent, xs: seq<State>, acts: seq<Action>, k: nat, p: nat)
    requires IsRun(t, xs, acts) && k < |xs| && p in xs[k].s.swarm.conns
    ensures forall m :: m in LogOf(xs[k], p) ==> Orderly(t, m)
  {
    hide Moves, Init, Inv, Orderly;
    StreamIsScript(t, xs, acts, k, p);
    RunInv(t, xs, acts, k);
    forall m | m in LogOf(xs[k], p) ensures Orderly(t, m) {
      if m.PieceMsg? {
        BlockOrderly(t, xs[k], p, m);
      } else {
        InPlain(LogOf(xs[k], p), m);
        ScriptOrderly(t, xs, acts, k, p, m);
      }
    }
  }

  // ----- what another client makes of it -----

  // the other client handles these messages, in order; ok as long as none is refused
  function Hear(sw: Swarm, q: seq<Event>, p: nat, msgs: seq<Bytes>): Handled
    decreases |msgs|
  {
    if msgs == [] then Handled(sw, q, true)
    else
      var before := Hear(sw, q, p, msgs[..|msgs| - 1]);
      var h := HandleMessage(before.swarm, before.queue, p, msgs[|msgs| - 1]);
      Handled(h.swarm, h.queue, before.ok && h.ok)
  }

  // what p has asked for in these events
  function AsksOf(q: seq<Event>, p: nat): seq<BlockRequest>
  {
    if q == [] then []
    else AsksOf(q[..|q| - 1], p)
         + (if q[|q| - 1].BlockAsked? && q[|q| - 1].peer == p then [q[|q| - 1].req] else [])
  }

  lemma AsksOne(q: seq<Event>, ev: Event, p: nat)
    ensures AsksOf(q + [ev], p) == AsksOf(q, p) + (if ev.BlockAsked? && ev.peer == p then [ev.req] else [])
  {
    assert (q + [ev])[..|q|] == q;
  }

  // the connection knows exactly what the messages so far say
  ghost predicate Grasps(count: nat, sofar: seq<Msg>, c: Conn)
  {
    && !c.amChoking
    && (match Scan(sofar, count)
        case Fresh => c.has == {} && !c.gotBitfield
        case Told(s) => c.has == s && c.gotBitfield
        case Garbled => false)
    && (c.peerChoking <==> Control(1) !in sofar)
    && (c.peerInterested <==> Control(2) in sofar)
  }

  ghost predicate Follows(count: nat, sofar: seq<Msg>, h: Handled, p: nat, asks: seq<BlockRequest>)
  {
    && h.ok && p in h.swarm.conns && |h.swarm.frequency| == count
    && Grasps(count, sofar, h.swarm.conns[p]) && AsksOf(h.queue, p) == asks + Requests(sofar)
  }

  // a message the other client does not refuse, and which events it makes of it
  lemma HeardQueue(sw: Swarm, q: seq<Event>, p: nat, m: Msg, t: Torrent)
    requires p in sw.conns && !sw.conns[p].amChoking && Orderly(t, m) && !m.Handshake?
    requires m.Have? ==> m.index < |sw.frequency| < TWO_32
    requires m.BitfieldMsg? ==> FromBytes(m.bytes, |sw.frequency|).Some?
    ensures var h := HandleMessage(sw, q, p, Body(m));
            h.ok && AsksOf(h.queue, p) == AsksOf(q, p) + (if m.RequestMsg? then [m.req] else [])
  {
    hide Body, Triple, BlockOf, TripleOf, ReadBe32, FromBytes, Bumped, AsksOf, HandleCancel;
    var h := HandleMessage(sw, q, p, Body(m));
    match m
    case KeepAlive => ControlReads(0);
    case Control(id) =>
      ControlReads(id);
      AsksOne(q, Unchoked(p), p);
    case Have(i) => HaveReads(i);
    case BitfieldMsg(bytes) => BitfieldReads(bytes);
    case RequestMsg(r) =>
      RequestBody(r);
      RequestQueues(sw, q, p, r);
      AsksOne(q, BlockAsked(p, r), p);
    case PieceMsg(i, begin, data) =>
      PieceReads(i, begin, data);
      AsksOne(q, PieceArrived(p, Block(i, begin, data)), p);
  }

  // which of its five kinds of meaning a message has for the reader
  lemma BodyMeans(m: Msg, t: Torrent, count: nat)
    requires Orderly(t, m) && !m.Handshake? && count < TWO_32
    ensures var b := Body(m);
            && !Begins(b, 0) && !Begins(b, 3)
            && (Begins(b, 1) <==> m == Control(1)) && (Begins(b, 2) <==> m == Control(2))
            && (Begins(b, 5) <==> m.BitfieldMsg?) && (m.BitfieldMsg? ==> b[1..] == m.bytes)
    ensures m.Have? && m.index < count ==> forall i :: Announces(Body(m), count, i) <==> i == m.index
    ensures !m.Have? ==> forall i :: !Announces(Body(m), count, i)
  {
    hide Body, Triple, BlockOf, TripleOf, ReadBe32;
    match m
    case KeepAlive => ControlReads(0);
    case Control(id) => ControlReads(id);
    case Have(i) => if i < count { HaveReads(i); } else { HaveNumber(i); }
    case BitfieldMsg(bytes) => BitfieldReads(bytes);
    case RequestMsg(r) =>
      RequestBody(r);
      RequestReads(r);
    case PieceMsg(i, begin, data) => PieceReads(i, begin, data);
  }

  lemma HaveNumber(i: nat)
    ensures Body(Have(i)) != [] && Body(Have(i))[0] == 4
  {
  }

  lemma GraspsMore(t: Torrent, sofar: seq<Msg>, m: Msg, sw: Swarm, q: seq<Event>, p: nat)
    requires p in sw.conns && Grasps(|sw.frequency|, sofar, sw.conns[p]) && |sw.frequency| < TWO_32
    requires Orderly(t, m) && !m.Handshake? && Scan(sofar + [m], |sw.frequency|) != Garbled
    requires m.Have? ==> m.index < |sw.frequency|
    ensures var h := HandleMessage(sw, q, p, Body(m));
            && p in h.swarm.conns && |h.swarm.frequency| == |sw.frequency|
            && Grasps(|sw.frequency|, sofar + [m], h.swarm.conns[p])
    ensures m.BitfieldMsg? ==> FromBytes(m.bytes, |sw.frequency|).Some?
  {
    hide Body, HandleMessage, FromBytes, Announces;
    ScanAppend(sofar, m, |sw.frequency|);
    BodyMeans(m, t, |sw.frequency|);
    HeardOne(sw, q, p, Body(m));
    MessageKeepsGreeted(sw, q, p, Body(m), p);
    var h := HandleMessage(sw, q, p, Body(m));
    assert forall i :: i in h.swarm.conns[p].has <==>
        || (m.Have? && i == m.index)
        || (if m.BitfieldMsg? && !sw.conns[p].gotBitfield && FromBytes(m.bytes, |sw.frequency|).Some?
            then i in FromBytes(m.bytes, |sw.frequency|).value else i in sw.conns[p].has);
  }

  lemma FollowsMore(t: Torrent, sofar: seq<Msg>, m: Msg, h: Handled, p: nat, asks: seq<BlockRequest>, count: nat)
    requires Follows(count, sofar, h, p, asks) && count < TWO_32
    requires Orderly(t, m) && !m.Handshake? && Scan(sofar + [m], count) != Garbled && (m.Have? ==> m.index < count)
    ensures Follows(count, sofar + [m], HandleMessage(h.swarm, h.queue, p, Body(m)), p, asks)
  {
    hide Body, HandleMessage, FromBytes, Scan, AsksOf, Requests, Orderly;
    GraspsMore(t, sofar, m, h.swarm, h.queue, p);
    HeardQueue(h.swarm, h.queue, p, m, t);
    RequestsOne(sofar, m);
    W.Regroup(asks, Requests(sofar), if m.RequestMsg? then [m.req] else []);
  }

  // an announcement that is not garbled never was, and only grows
  lemma {:induction false} ScanPrefix(log: seq<Msg>, j: nat, count: nat)
    requires j <= |log| && Scan(log, count) != Garbled
    ensures Scan(log[..j], count) != Garbled
    ensures Scan(log[..j], count).Told? ==>
              Scan(log, count).Told? && Scan(log[..j], count).pieces <= Scan(log, count).pieces
    decreases |log|
  {
    if j == |log| {
      assert log[..j] == log;
    } else {
      ScanPrefix(log[..|log| - 1], j, count);
      assert log[..|log| - 1][..j] == log[..j];
    }
  }

  // what has been announced is a piece
  lemma HaveInRange(log: seq<Msg>, j: nat, count: nat)
    requires j < |log| && Scan(log, count) != Garbled && log[j].Have?
    requires Scan(log, count).Told? ==> forall i :: i in Scan(log, count).pieces ==> i < count
    ensures log[j].index < count
  {
    ScanPrefix(log, j + 1, count);
    assert log[..j + 1] == log[..j] + [log[j]];
    ScanAppend(log[..j], log[j], count);
  }

  // a connection that is ready to listen and has heard nothing
  ghost predicate Listening(sw: Swarm, p: nat, count: nat)
  {
    && p in sw.conns && |sw.frequency| == count
    && var c := sw.conns[p];
    && !c.amChoking && c.peerChoking && !c.peerInterested && !c.gotBitfield && c.has == {}
  }

  lemma {:induction false} Listens(t: Torrent, log: seq<Msg>, n: nat, j: nat, sw: Swarm, q: seq<Event>, p: nat,
                                   count: nat)
    requires n <= j <= |log| && n == Opening(log) && HandshakeFirst(log) && count < TWO_32
    requires (forall m :: m in log ==> Orderly(t, m)) && Scan(log, count) != Garbled && Listening(sw, p, count)
    requires Scan(log, count).Told? ==> forall i :: i in Scan(log, count).pieces ==> i < count
    ensures Follows(count, log[..j], Hear(sw, q, p, Bodies(log[n..j])), p, AsksOf(q, p))
    decreases j
  {
    hide HandleMessage, Body, Orderly, FromBytes, AsksOf, Follows;
    if j == n {
      assert Bodies(log[n..n]) == [];
      OpeningSaysNothing(log, sw, q, p, count);
    } else {
      Listens(t, log, n, j - 1, sw, q, p, count);
      var m, heard := log[j - 1], Bodies(log[n..j]);
      assert log[..j] == log[..j - 1] + [m];
      assert heard[..|heard| - 1] == Bodies(log[n..j - 1]) && heard[|heard| - 1] == Body(m);
      ScanPrefix(log, j, count);
      if m.Have? { HaveInRange(log, j - 1, count); }
      var before := Hear(sw, q, p, Bodies(log[n..j - 1]));
      FollowsOk(count, log[..j - 1], before, p, AsksOf(q, p));
      FollowsMore(t, log[..j - 1], m, before, p, AsksOf(q, p), count);
      var h := HandleMessage(before.swarm, before.queue, p, Body(m));
      FollowsOk(count, log[..j], h, p, AsksOf(q, p));
      assert Hear(sw, q, p, heard) == h;
    }
  }

  lemma FollowsOk(count: nat, sofar: seq<Msg>, h: Handled, p: nat, asks: seq<BlockRequest>)
    requires Follows(count, sofar, h, p, asks)
    ensures h.ok
  {
  }

  lemma OpeningSaysNothing(log: seq<Msg>, sw: Swarm, q: seq<Event>, p: nat, count: nat)
    requires Listening(sw, p, count)
    ensures Follows(count, log[..Opening(log)], Handled(sw, q, true), p, AsksOf(q, p))
  {
    hide AsksOf;
    var front := log[..Opening(log)];
    if front != [] {
      assert front == [] + [log[0]];
      ScanAppend([], log[0], count);
      RequestsOne([], log[0]);
    }
    assert Scan(front, count) == Fresh && Requests(front) == [];
    assert AsksOf(q, p) + [] == AsksOf(q, p);
  }

  lemma ToldPieces(t: Torrent, x: State, p: nat)
    requires Inv(t, x) && p in x.s.swarm.conns
    ensures t.Count() < TWO_32
    ensures Scan(LogOf(x, p), t.Count()) == if Joined(p) in x.s.queue then Fresh else Told(x.s.pieces.have)
    ensures forall i :: i in x.s.pieces.have ==> i < t.Count()
  {
    assert ConnOk(t, x.s, DeliveredTo(x.h, p), p, x.s.swarm.conns[p]);
  }

  // In every run, another client of this kind that has not heard from us yet and
  // lets us ask, once it has handled the messages of our stream: has refused none
  // of them; takes us to have exactly the pieces we own, or none before we greet
  // it; knows us as unchoking and interested exactly if our stream says so; and
  // holds exactly the requests our scheduler has made to it, in order.
  lemma OthersUnderstand(t: Torrent, xs: seq<State>, acts: seq<Action>, k: nat, p: nat,
                         sw: Swarm, q: seq<Event>, us: nat)
    requires IsRun(t, xs, acts) && k < |xs| && p in xs[k].s.swarm.conns && Listening(sw, us, t.Count())
    ensures var x, log := xs[k], LogOf(xs[k], p);
            var h := Hear(sw, q, us, Bodies(log[Opening(log)..]));
            && h.ok && us in h.swarm.conns
            && var c := h.swarm.conns[us];
            && c.has == (if Joined(p) in x.s.queue then {} else x.s.pieces.have)
            && (c.peerChoking <==> Control(1) !in log) && (c.peerInterested <==> Control(2) in log)
            && AsksOf(h.queue, us) == AsksOf(q, us) + AskedOf(acts, p, k)
  {
    hide Moves, Init, Inv, Hear, AsksOf, Requests, Scan, Listening;
    var log := LogOf(xs[k], p);
    RunInv(t, xs, acts, k);
    ToldPieces(t, xs[k], p);
    LogOrderly(t, xs, acts, k, p);
    WireCarriesMessages(t, xs, acts, k, p);
    RequestsAreSent(t, xs, acts, k, p);
    Listens(t, log, Opening(log), |log|, sw, q, us, t.Count());
    assert log[..|log|] == log && log[Opening(log)..|log|] == log[Opening(log)..];
  }

  // The same from the bytes on the wire: all of it, whenever the stream is readable.
  lemma BytesAreUnderstood(t: Torrent, xs: seq<State>, acts: seq<Action>, k: nat, p: nat,
                           sw: Swarm, q: seq<Event>, us: nat)
    requires IsRun(t, xs, acts) && k < |xs| && p in xs[k].s.swarm.conns && Listening(sw, us, t.Count())
    requires t.Count() <= MAX_READABLE_PIECES
    ensures var x, log, o := xs[k], LogOf(xs[k], p), xs[k].s.swarm.conns[p].out;
            && W.Wf(W.OnWire(o))
            && var bytes := Taken(xs, acts, p, k) + W.Remainder(W.OnWire(o));
            var opening := |Join(W.Encoded(log[..Opening(log)]))|;
            && opening <= |bytes|
            && var read := Drain(bytes[opening..]);
            && !read.failed && read.rest == []
            && var h := Hear(sw, q, us, read.msgs);
            && h.ok && us in h.swarm.conns
            && h.swarm.conns[us].has == (if Joined(p) in x.s.queue then {} else x.s.pieces.have)
            && AsksOf(h.queue, us) == AsksOf(q, us) + AskedOf(acts, p, k)
  {
    hide Moves, Init, Hear, AsksOf, Drain, Taken, Listening, W.Remainder, W.Wf;
    PeersReadTheMessages(t, xs, acts, k, p);
    OthersUnderstand(t, xs, acts, k, p, sw, q, us);
  }
}
