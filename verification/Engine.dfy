// What Session does with the managers (src/runtime/session.cpp), and the runs
// of the whole client as a step system.
module Engine {
  import opened Types
  import opened Torrents
  import opened Wire
  import opened Bitfields
  import opened Swarms
  import Outboxes
  import P = Pieces
  import B = Bans

  // how many blocks a peer may be asked for at a time
  const PIPELINE_DEPTH: nat := 32

  // 'disk' is the download as one byte array (DiskManager.dfy relates it to the
  // files), 'queue' the events not dispatched yet, 'notified' whether the
  // trackers have been told that the download completed
  datatype Session = Session(
    pieces: P.Pieces,
    bans: B.Bans,
    swarm: Swarm,
    disk: Bytes,
    queue: seq<Event>,
    clock: int,
    completed: bool,
    notified: bool)

  // what the functions below rely on; part of the invariant of every run
  ghost predicate Shaped(t: Torrent, s: Session)
  {
    && t.Valid()
    && P.Wf(t, s.pieces)
    && |s.disk| == t.totalLength
    && |s.swarm.frequency| == t.Count()
    && forall i :: i in s.bans.evidence ==> EvidenceShaped(t, i, s.bans.evidence[i])
  }

  ghost predicate EvidenceShaped(t: Torrent, i: nat, ev: B.Evidence)
    requires t.Valid()
  {
    i < t.Count() && |ev.data| == t.Size(i) && |ev.senders| == t.Blocks(i)
  }

  // ----- events -----

  function Greet(t: Torrent, s: Session, p: nat): Session
  {
    var sw := SendUnchoke(SendTo(s.swarm, p, BitfieldMsg(Pack(s.pieces.have, t.Count()))), p);
    s.(swarm := if s.pieces.haveCount == t.Count() then sw else SendInterested(sw, p))
  }

  function OnJoined(t: Torrent, s: Session, p: nat): Session
  {
    var s1 := if p in s.swarm.conns then s.(bans := B.OnJoin(s.bans, p, s.swarm.conns[p].host)) else s;
    Greet(t, s1, p)
  }

  function ReleaseEvents(ps: P.Pieces, evs: seq<Event>): P.Pieces
    decreases |evs|
  {
    if evs == [] then ps
    else ReleaseEvents(if evs[0].Dropped? || evs[0].Choked? then P.Release(ps, evs[0].released) else ps, evs[1..])
  }

  function BanHost(s: Session, host: Host, order: seq<nat>): Session
  {
    var (sw, evs) := Ban(s.swarm, host, order);
    s.(swarm := sw, pieces := ReleaseEvents(s.pieces, evs))
  }

  // order(h) is how conns_ lists the connections when h gets banned
  function BanHosts(s: Session, hosts: seq<Host>, order: Host -> seq<nat>): Session
    decreases |hosts|
  {
    if hosts == [] then s else BanHosts(BanHost(s, hosts[0], order(hosts[0])), hosts[1..], order)
  }

  // everything of on_piece except the bans it leads to
  function FilePiece(t: Torrent, s: Session, p: nat, block: Block): (Session, seq<Host>)
    requires Shaped(t, s)
  {
    var (ps, res) := P.OnBlock(t, s.pieces, block);
    var s1 := s.(pieces := ps, bans := if res == P.Rejected then s.bans else B.OnBlock(s.bans, p, block));
    match res
    case Rejected => (s1, [])
    case Incomplete => (s1, [])
    case PieceVerified(i, data) =>
      Evident(t, s.bans, i, data);
      var (bans, hosts) := B.OnPieceVerified(s1.bans, i, data);
      (s1.(disk := Splice(s.disk, t.Offset(i), data), swarm := BroadcastHave(s.swarm, i), bans := bans), hosts)
    case PieceFailed(i, data) =>
      var (bans, hosts) := B.OnPieceFailed(s1.bans, i, data);
      (s1.(bans := bans), hosts)
  }

  lemma Evident(t: Torrent, bans: B.Bans, i: nat, data: Bytes)
    requires t.Valid() && i < t.Count() && |data| == t.Size(i)
    requires i in bans.evidence ==> EvidenceShaped(t, i, bans.evidence[i])
    ensures i in bans.evidence ==> B.EvidenceFits(bans.evidence[i], data)
  {
  }

  function OnPiece(t: Torrent, s: Session, p: nat, block: Block, order: Host -> seq<nat>): Session
    requires Shaped(t, s)
  {
    var (s1, hosts) := FilePiece(t, s, p, block);
    BanHosts(s1, hosts, order)
  }

  function OnAsked(t: Torrent, s: Session, p: nat, req: BlockRequest): Session
    requires Shaped(t, s)
  {
    if req.piece !in s.pieces.have || !CanQueue(s.swarm, p) || req.offset + req.length > t.Size(req.piece) then s
    else
      s.(swarm := SendTo(s.swarm, p, PieceMsg(req.piece, req.offset,
                                             t.PieceOf(s.disk, req.piece)[req.offset..req.offset + req.length])))
  }

  function Handle(t: Torrent, s: Session, ev: Event, order: Host -> seq<nat>): Session
    requires Shaped(t, s)
  {
    match ev
    case Joined(p) => OnJoined(t, s, p)
    case PieceArrived(p, block) => OnPiece(t, s, p, block, order)
    case BlockAsked(p, req) => OnAsked(t, s, p, req)
    case Choked(_, released) => s.(pieces := P.Release(s.pieces, released))
    case Dropped(_, released) => s.(pieces := P.Release(s.pieces, released))
    case Unchoked(_) => s
  }

  // dispatch the first event
  function Dispatch(t: Torrent, s: Session, order: Host -> seq<nat>): Session
    requires Shaped(t, s) && s.queue != []
  {
    Handle(t, s.(queue := s.queue[1..]), s.queue[0], order)
  }

  // ----- timeouts -----

  // take_stale: how many requests at the front were sent before the cutoff
  function StaleCount(pending: seq<PendingRequest>, cutoff: int): (k: nat)
    ensures k <= |pending|
    ensures k < |pending| ==> pending[k].sentAt >= cutoff
    ensures forall j :: 0 <= j < k ==> pending[j].sentAt < cutoff
  {
    if pending == [] || pending[0].sentAt >= cutoff then 0 else 1 + StaleCount(pending[1..], cutoff)
  }

  function Expire(s: Session, p: nat, cutoff: int): Session
    requires p in s.swarm.conns
  {
    var c := s.swarm.conns[p];
    var k := StaleCount(c.pending, cutoff);
    if k == 0 then s
    else s.(swarm := Put(s.swarm, p, c.(pending := c.pending[k..], snubbed := true)),
            pieces := P.Release(s.pieces, RequestsOf(c.pending[..k])))
  }

  function CheckComplete(t: Torrent, s: Session): Session
  {
    if s.pieces.haveCount == t.Count() && !s.completed then s.(completed := true, notified := true) else s
  }

  // may the scheduler ask this peer for another block
  predicate WantsWork(c: Conn)
  {
    !c.peerChoking && if c.snubbed then c.pending == [] else |c.pending| < PIPELINE_DEPTH
  }

  // ----- runs -----

  datatype Arrival = Arrival(peer: nat, data: Bytes)

  // delivered: messages completely sent, per connection
  // arrivals: the blocks accepted in the current attempt, by piece and block number
  // leaked: per piece, how many first bitfields replaced an earlier have
  // resumed: whether the download was complete at the start
  datatype History = History(
    delivered: map<nat, seq<Msg>>,
    arrivals: map<(nat, nat), Arrival>,
    leaked: seq<nat>,
    resumed: bool)

  datatype State = State(s: Session, h: History)

  datatype Action =
    | BeginHandshake(host: Host)
    | AbandonHandshake(k: nat)
    | FinishHandshake(k: nat, reply: Option<Msg>)
    | Deliver(peer: nat, msg: Bytes)
    | Transmit(peer: nat, w: nat)
    | KeepAliveTo(peer: nat)
    | DropConn(peer: nat)
    | DispatchNext(order: Host -> seq<nat>)
    | ExpireAt(peer: nat, cutoff: int)
    | NoticeComplete
    | Schedule(peer: nat, now: int, pieces: P.Pieces, req: BlockRequest)

  // a session just constructed over whatever the files hold: every piece that
  // verifies is marked as owned
  ghost predicate Init(t: Torrent, x: State)
  {
    && t.Valid()
    && |x.s.disk| == t.totalLength
    && x.s.pieces == P.Pieces(Verified(t, x.s.disk), |Verified(t, x.s.disk)|,
                              P.BytesBelow(t, Verified(t, x.s.disk), t.Count()), map[])
    && x.s.bans == B.Bans(map[], map[], map[])
    && x.s.swarm == Swarm(map[], [], {}, 0, seq(t.Count(), _ => 0))
    && x.s.queue == []
    && x.s.completed == (x.s.pieces.haveCount == t.Count())
    && !x.s.notified
    && x.h == History(map[], map[], seq(t.Count(), _ => 0), x.s.completed)
  }

  ghost function Verified(t: Torrent, disk: Bytes): set<nat>
    requires t.Valid() && |disk| == t.totalLength
  {
    set i: nat | i < t.Count() && t.Verify(i, t.PieceOf(disk, i))
  }

  function DeliveredTo(h: History, p: nat): seq<Msg>
  {
    if p in h.delivered then h.delivered[p] else []
  }

  // accept_new and start_dial: never past capacity, never a banned host
  ghost predicate BeginStep(x: State, host: Host, y: State)
  {
    var sw := x.s.swarm;
    && host !in sw.banned
    && |sw.conns| + |sw.handshaking| < MAX_PEERS
    && y == x.(s := x.s.(swarm := sw.(handshaking := sw.handshaking + [host])))
  }

  ghost predicate AbandonStep(x: State, k: nat, y: State)
  {
    var sw := x.s.swarm;
    && k < |sw.handshaking|
    && y == x.(s := x.s.(swarm := sw.(handshaking := Without(sw.handshaking, k))))
  }

  // handle_events finishes handshakes before it reads any message, so only
  // Joined events can be waiting
  ghost predicate FinishStep(x: State, k: nat, reply: Option<Msg>, y: State)
  {
    var s := x.s;
    && k < |s.swarm.handshaking|
    && s.swarm.handshaking[k] !in s.swarm.banned
    && (forall j :: 0 <= j < |s.queue| ==> s.queue[j].Joined?)
    && (reply.Some? ==> reply.value.Handshake? && WfMsg(reply.value))
    && var (sw, ev) := Promote(s.swarm, k, reply);
    && y == x.(s := s.(swarm := sw, queue := s.queue + [ev]))
  }

  ghost predicate DeliverStep(x: State, p: nat, msg: Bytes, y: State)
  {
    var r := HandleMessage(x.s.swarm, x.s.queue, p, msg);
    y == State(x.s.(swarm := r.swarm, queue := r.queue), x.h.(leaked := LeakedBy(x, p, msg)))
  }

  ghost predicate TransmitStep(x: State, p: nat, w: nat, y: State)
  {
    && p in x.s.swarm.conns
    && var c := x.s.swarm.conns[p];
    && Outboxes.CanSend(c.out, w)
    && var out := Outboxes.Send(c.out, w);
    && y.s == x.s.(swarm := Put(x.s.swarm, p, c.(out := out)))
    && y.h == (if |out.buffer| == |c.out.buffer| then x.h
               else x.h.(delivered := x.h.delivered[p := DeliveredTo(x.h, p) + [c.out.buffer[0]]]))
  }

  ghost predicate KeepAliveStep(x: State, p: nat, y: State)
  {
    && p in x.s.swarm.conns
    && x.s.swarm.conns[p].out.buffer == []
    && y == x.(s := x.s.(swarm := SendTo(x.s.swarm, p, KeepAlive)))
  }

  ghost predicate DropStep(x: State, p: nat, y: State)
  {
    && p in x.s.swarm.conns
    && var (sw, ev) := Drop(x.s.swarm, p);
    && y == x.(s := x.s.(swarm := sw, queue := x.s.queue + [ev]))
  }

  ghost predicate DispatchStep(t: Torrent, x: State, order: Host -> seq<nat>, y: State)
    requires Shaped(t, x.s)
  {
    && x.s.queue != []
    && (forall h :: Lists(order(h), x.s.swarm))
    && y.s == Dispatch(t, x.s, order)
    && y.h == (match x.s.queue[0]
               case PieceArrived(p, block) => x.h.(arrivals := ArrivalsWith(t, x.s.pieces, x.h.arrivals, p, block))
               case _ => x.h)
  }

  // the later phases of run() start once every event has been dispatched
  ghost predicate ExpireStep(x: State, p: nat, cutoff: int, y: State)
  {
    x.s.queue == [] && p in x.s.swarm.conns && y == x.(s := Expire(x.s, p, cutoff))
  }

  ghost predicate CompleteStep(t: Torrent, x: State, y: State)
  {
    x.s.queue == [] && y == x.(s := CheckComplete(t, x.s))
  }

  ghost predicate ScheduleStep(t: Torrent, x: State, p: nat, now: int, pieces: P.Pieces, req: BlockRequest, y: State)
    requires Shaped(t, x.s)
  {
    var s := x.s;
    && s.queue == []
    && p in s.swarm.conns
    && WantsWork(s.swarm.conns[p])
    && s.clock <= now
    && P.PickStep(t, s.pieces, s.swarm.conns[p].has, s.swarm.frequency, p, pieces, Some(req))
    && y == x.(s := s.(pieces := pieces, swarm := SendRequest(s.swarm, p, req, now), clock := now))
  }

  ghost predicate Next(t: Torrent, x: State, a: Action, y: State)
    requires Shaped(t, x.s)
  {
    match a
    case BeginHandshake(host) => BeginStep(x, host, y)
    case AbandonHandshake(k) => AbandonStep(x, k, y)
    case FinishHandshake(k, reply) => FinishStep(x, k, reply, y)
    case Deliver(p, msg) => DeliverStep(x, p, msg, y)
    case Transmit(p, w) => TransmitStep(x, p, w, y)
    case KeepAliveTo(p) => KeepAliveStep(x, p, y)
    case DropConn(p) => DropStep(x, p, y)
    case DispatchNext(order) => DispatchStep(t, x, order, y)
    case ExpireAt(p, cutoff) => ExpireStep(x, p, cutoff, y)
    case NoticeComplete => CompleteStep(t, x, y)
    case Schedule(p, now, pieces, req) => ScheduleStep(t, x, p, now, pieces, req, y)
  }

  function Arrived(arrivals: map<(nat, nat), Arrival>, p: nat, block: Block): map<(nat, nat), Arrival>
  {
    arrivals[(block.piece, block.offset / BLOCK_SIZE) := Arrival(p, block.data)]
  }

  function Forgotten(arrivals: map<(nat, nat), Arrival>, i: nat): map<(nat, nat), Arrival>
  {
    map k | k in arrivals && k.0 != i :: arrivals[k]
  }

  // a verdict on the piece ends the attempt, and the next one starts from nothing
  function ArrivalsWith(t: Torrent, ps: P.Pieces, arrivals: map<(nat, nat), Arrival>, p: nat, block: Block): map<(nat,
      nat), Arrival>
    requires t.Valid()
  {
    match P.OnBlock(t, ps, block).1
    case Rejected => arrivals
    case Incomplete => Arrived(arrivals, p, block)
    case PieceFailed(i, _) => Forgotten(arrivals, i)
    case PieceVerified(i, _) => Forgotten(arrivals, i)
  }

  // a first bitfield replaces the pieces announced before it without taking
  // them out of the counts
  function LeakedBy(x: State, p: nat, msg: Bytes): seq<nat>
  {
    if p in x.s.swarm.conns && msg != [] && msg[0] == MSG_BITFIELD && !x.s.swarm.conns[p].gotBitfield
       && FromBytes(msg[1..], |x.s.swarm.frequency|).Some?
    then seq(|x.h.leaked|, i requires 0 <= i < |x.h.leaked| =>
               x.h.leaked[i] + (if i in x.s.swarm.conns[p].has then 1 else 0))
    else x.h.leaked
  }
}
