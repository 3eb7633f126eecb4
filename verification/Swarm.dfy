// The established connections (src/runtime/managers/peer_manager.cpp:
// handle_message, drop, ban, promote, enqueue, apply_availability), as values
// and functions; PeerManager.dfy holds the in-place form.
module Swarms {
  import opened Types
  import opened Wire
  import opened Bitfields
  import Outboxes

  // default of the PeerManager constructor
  const MAX_PEERS: nat := 60

  datatype Conn = Conn(
    host: Host,
    amChoking: bool, amInterested: bool, peerChoking: bool, peerInterested: bool,
    gotBitfield: bool,
    snubbed: bool,
    pending: seq<PendingRequest>,
    has: set<nat>,
    out: Outboxes.Outbox)

  datatype Event =
    | Joined(peer: nat)
    | Choked(peer: nat, released: seq<BlockRequest>)
    | Unchoked(peer: nat)
    | PieceArrived(peer: nat, block: Block)
    | BlockAsked(peer: nat, req: BlockRequest)
    | Dropped(peer: nat, released: seq<BlockRequest>)

  // 'handshaking' holds the hosts of inbound and outbound sockets that are not connections yet
  datatype Swarm = Swarm(
    conns: map<nat, Conn>,
    handshaking: seq<Host>,
    banned: set<Host>,
    nextId: nat,
    frequency: seq<nat>)

  function Put(sw: Swarm, p: nat, c: Conn): Swarm
  {
    sw.(conns := sw.conns[p := c])
  }

  // ----- sending -----

  function Enqueued(c: Conn, m: Msg): Conn
  {
    c.(out := Outboxes.Enqueue(c.out, m))
  }

  function SendTo(sw: Swarm, p: nat, m: Msg): Swarm
  {
    if p in sw.conns then Put(sw, p, Enqueued(sw.conns[p], m)) else sw
  }

  function SendUnchoke(sw: Swarm, p: nat): Swarm
  {
    if p in sw.conns then Put(sw, p, Enqueued(sw.conns[p].(amChoking := false), Control(MSG_UNCHOKE))) else sw
  }

  function SendInterested(sw: Swarm, p: nat): Swarm
  {
    if p in sw.conns then Put(sw, p, Enqueued(sw.conns[p].(amInterested := true), Control(MSG_INTERESTED))) else sw
  }

  function SendRequest(sw: Swarm, p: nat, req: BlockRequest, now: int): Swarm
  {
    if p in sw.conns then
      var c := sw.conns[p];
      Put(sw, p, Enqueued(c.(pending := c.pending + [PendingRequest(req, now)]), RequestMsg(req)))
    else sw
  }

  function BroadcastHave(sw: Swarm, i: nat): Swarm
  {
    sw.(conns := map p | p in sw.conns :: Enqueued(sw.conns[p], Have(i)))
  }

  predicate CanQueue(sw: Swarm, p: nat)
  {
    p in sw.conns && sw.conns[p].out.queued < Outboxes.MAX_QUEUED
  }

  // ----- availability -----

  // piece_frequency_ holds 16-bit counters
  function Bumped(frequency: seq<nat>, has: set<nat>, delta: int): (r: seq<nat>)
    ensures |r| == |frequency|
  {
    seq(|frequency|, i requires 0 <= i < |frequency| =>
          if i in has then (frequency[i] + delta) % 0x1_0000 else frequency[i])
  }

  // ----- one incoming message -----

  // 'ok' is false when the message is a protocol error, for which the peer gets dropped
  datatype Handled = Handled(swarm: Swarm, queue: seq<Event>, ok: bool)

  function HandleHave(sw: Swarm, q: seq<Event>, p: nat, payload: Bytes): Handled
    requires p in sw.conns
  {
    if |payload| != 4 || ReadBe32(payload) >= |sw.frequency| then Handled(sw, q, false)
    else
      var i, c := ReadBe32(payload), sw.conns[p];
      if i in c.has then Handled(sw, q, true)
      else Handled(Put(sw, p, c.(has := c.has + {i})).(frequency := Bumped(sw.frequency, {i}, 1)), q, true)
  }

  function HandleBitfield(sw: Swarm, q: seq<Event>, p: nat, payload: Bytes): Handled
    requires p in sw.conns
  {
    var c := sw.conns[p];
    if c.gotBitfield then Handled(sw, q, true)
    else
      match FromBytes(payload, |sw.frequency|)
      case None => Handled(Put(sw, p, c.(gotBitfield := true)), q, false)
      case Some(has) =>
        Handled(Put(sw, p, c.(gotBitfield := true, has := has)).(frequency := Bumped(sw.frequency, has, 1)), q, true)
  }

  function HandleRequest(sw: Swarm, q: seq<Event>, p: nat, payload: Bytes): Handled
    requires p in sw.conns
  {
    if sw.conns[p].amChoking then Handled(sw, q, true)
    else if |payload| != 12 || ReadBe32(payload[8..]) > BLOCK_SIZE then Handled(sw, q, false)
    else Handled(sw, q + [BlockAsked(p, TripleOf(payload))], true)
  }

  function TripleOf(payload: Bytes): BlockRequest
    requires |payload| == 12
  {
    BlockRequest(ReadBe32(payload), ReadBe32(payload[4..]), ReadBe32(payload[8..]))
  }

  // the first pending request that matches, or |pending|
  function FindPending(pending: seq<PendingRequest>, req: BlockRequest): (k: nat)
    ensures k <= |pending|
    ensures k < |pending| ==> pending[k].req == req
    ensures forall j :: 0 <= j < k ==> pending[j].req != req
  {
    if pending == [] || pending[0].req == req then 0 else 1 + FindPending(pending[1..], req)
  }

  function BlockOf(payload: Bytes): Block
    requires |payload| >= 8
  {
    Block(ReadBe32(payload), ReadBe32(payload[4..]), payload[8..])
  }

  function HandlePiece(sw: Swarm, q: seq<Event>, p: nat, payload: Bytes): Handled
    requires p in sw.conns
  {
    if |payload| < 8 then Handled(sw, q, false)
    else
      var c, block := sw.conns[p], BlockOf(payload);
      var k := FindPending(c.pending, BlockRequest(block.piece, block.offset, |block.data|));
      if k == |c.pending| then Handled(sw, q, true)
      else Handled(Put(sw, p, c.(pending := Without(c.pending, k), snubbed := false)),
                   q + [PieceArrived(p, block)], true)
  }

  // the last undispatched request of this peer for this block, or |q|
  function FindAsked(q: seq<Event>, ev: Event): (k: nat)
    ensures k <= |q|
    ensures k < |q| ==> q[k] == ev
    ensures forall j :: k < j < |q| ==> q[j] != ev
    ensures k == |q| ==> ev !in q
  {
    if q == [] then 0
    else if q[|q| - 1] == ev then |q| - 1
    else var k := FindAsked(q[..|q| - 1], ev); if k == |q| - 1 then |q| else k
  }

  function HandleCancel(sw: Swarm, q: seq<Event>, p: nat, payload: Bytes): Handled
    requires p in sw.conns
  {
    if |payload| != 12 || ReadBe32(payload[8..]) > BLOCK_SIZE then Handled(sw, q, false)
    else
      var r, c := TripleOf(payload), sw.conns[p];
      var k := FindAsked(q, BlockAsked(p, r));
      if k < |q| then Handled(sw, Without(q, k), true)
      else Handled(Put(sw, p, c.(out := Outboxes.Cancel(c.out, r.piece, r.offset, r.length))), q, true)
  }

  function HandleMessage(sw: Swarm, q: seq<Event>, p: nat, msg: Bytes): Handled
  {
    if p !in sw.conns || msg == [] then Handled(sw, q, true)
    else
      var c, id, payload := sw.conns[p], msg[0], msg[1..];
      if id == MSG_CHOKE then
        Handled(Put(sw, p, c.(peerChoking := true, pending := [])), q + [Choked(p, RequestsOf(c.pending))], true)
      else if id == MSG_UNCHOKE then Handled(Put(sw, p, c.(peerChoking := false)), q + [Unchoked(p)], true)
      else if id == MSG_INTERESTED then Handled(Put(sw, p, c.(peerInterested := true)), q, true)
      else if id == MSG_NOT_INTERESTED then Handled(Put(sw, p, c.(peerInterested := false)), q, true)
      else if id == MSG_HAVE then HandleHave(sw, q, p, payload)
      else if id == MSG_BITFIELD then HandleBitfield(sw, q, p, payload)
      else if id == MSG_REQUEST then HandleRequest(sw, q, p, payload)
      else if id == MSG_PIECE then HandlePiece(sw, q, p, payload)
      else if id == MSG_CANCEL then HandleCancel(sw, q, p, payload)
      else Handled(sw, q, true)
  }

  // ----- joining and leaving -----

  function Drop(sw: Swarm, p: nat): (r: (Swarm, Event))
    requires p in sw.conns
  {
    var c := sw.conns[p];
    (sw.(conns := sw.conns - {p}, frequency := Bumped(sw.frequency, c.has, -1)), Dropped(p, RequestsOf(c.pending)))
  }

  // drop the host's connections in the order the map happens to list them
  function DropHost(sw: Swarm, host: Host, order: seq<nat>): (r: (Swarm, seq<Event>))
    decreases |order|
  {
    if order == [] then (sw, [])
    else if order[0] in sw.conns && sw.conns[order[0]].host == host then
      var (sw1, ev) := Drop(sw, order[0]);
      var (sw2, evs) := DropHost(sw1, host, order[1..]);
      (sw2, [ev] + evs)
    else DropHost(sw, host, order[1..])
  }

  function Ban(sw: Swarm, host: Host, order: seq<nat>): (Swarm, seq<Event>)
  {
    if host in sw.banned then (sw, [])
    else DropHost(sw.(banned := sw.banned + {host}), host, order)
  }

  // order lists the connections, each at least once
  ghost predicate Lists(order: seq<nat>, sw: Swarm)
  {
    forall p :: p in sw.conns ==> p in order
  }

  function NewConn(host: Host): Conn
  {
    Conn(host, true, false, true, false, false, false, [], {}, Outboxes.EMPTY)
  }

  // an inbound peer is sent our handshake only after its own was checked
  function Promote(sw: Swarm, k: nat, reply: Option<Msg>): (Swarm, Event)
    requires k < |sw.handshaking|
  {
    var c := NewConn(sw.handshaking[k]);
    (sw.(conns := sw.conns[sw.nextId := if reply.Some? then Enqueued(c, reply.value) else c],
         handshaking := Without(sw.handshaking, k),
         nextId := sw.nextId + 1),
     Joined(sw.nextId))
  }
}
