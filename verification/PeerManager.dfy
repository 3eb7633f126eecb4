// PeerManager (src/runtime/managers/peer_manager.cpp), updating its tables in place.
module PeerManagers {
  import opened Types
  import opened Wire
  import opened Bitfields
  import opened S = Swarms
  import Outboxes

  class PeerManager {
    var conns: map<nat, Conn>
    var handshaking: seq<Host>
    var banned: set<Host>
    var nextId: nat
    var frequency: seq<nat>

    ghost function Value(): S.Swarm
      reads this
    {
      S.Swarm(conns, handshaking, banned, nextId, frequency)
    }

    constructor (pieceCount: nat)
      ensures Value() == S.Swarm(map[], [], {}, 0, seq(pieceCount, _ => 0))
    {
      conns, handshaking, banned, nextId := map[], [], {}, 0;
      frequency := seq(pieceCount, _ => 0);
    }

    // ----- availability -----

    // ++ and -- on 16-bit counters
    method ApplyAvailability(has: set<nat>, delta: int)
      modifies this`frequency
      ensures frequency == Bumped(old(frequency), has, delta)
    {
      var i := 0;
      while i < |frequency|
        invariant 0 <= i <= |frequency| == |old(frequency)|
        invariant forall j :: 0 <= j < i ==> frequency[j] == Bumped(old(frequency), has, delta)[j]
        invariant forall j :: i <= j < |frequency| ==> frequency[j] == old(frequency)[j]
      {
        if i in has {
          frequency := frequency[i := (frequency[i] + delta) % 0x1_0000];
        }
        i := i + 1;
      }
    }

    // ----- sending -----

    method SendTo(peer: nat, m: Msg)
      modifies this`conns
      ensures Value() == S.SendTo(old(Value()), peer, m)
    {
      if peer in conns {
        conns := conns[peer := Enqueued(conns[peer], m)];
      }
    }

    method SendUnchoke(peer: nat)
      modifies this`conns
      ensures Value() == S.SendUnchoke(old(Value()), peer)
    {
      if peer in conns {
        conns := conns[peer := conns[peer].(amChoking := false)];
        SendTo(peer, Control(MSG_UNCHOKE));
        assert conns == S.SendUnchoke(old(Value()), peer).conns;
      }
    }

    method SendInterested(peer: nat)
      modifies this`conns
      ensures Value() == S.SendInterested(old(Value()), peer)
    {
      if peer in conns {
        conns := conns[peer := conns[peer].(amInterested := true)];
        SendTo(peer, Control(MSG_INTERESTED));
        assert conns == S.SendInterested(old(Value()), peer).conns;
      }
    }

    method SendRequest(peer: nat, req: BlockRequest, now: int)
      modifies this`conns
      ensures Value() == S.SendRequest(old(Value()), peer, req, now)
    {
      if peer in conns {
        var c := conns[peer];
        conns := conns[peer := c.(pending := c.pending + [PendingRequest(req, now)])];
        SendTo(peer, RequestMsg(req));
        assert conns == S.SendRequest(old(Value()), peer, req, now).conns;
      }
    }

    method BroadcastHave(index: nat)
      modifies this`conns
      ensures Value() == S.BroadcastHave(old(Value()), index)
    {
      var todo := conns.Keys;
      while todo != {}
        invariant todo <= conns.Keys == old(conns).Keys
        invariant forall p :: p in conns ==>
                    conns[p] == if p in todo then old(conns)[p] else Enqueued(old(conns)[p], Have(index))
        decreases todo
      {
        var p :| p in todo;
        todo := todo - {p};
        conns := conns[p := Enqueued(conns[p], Have(index))];
      }
      assert conns == S.BroadcastHave(old(Value()), index).conns;
    }

    method CanQueue(peer: nat) returns (ok: bool)
      ensures ok <==> peer in conns && conns[peer].out.queued < Outboxes.MAX_QUEUED
    {
      if peer !in conns { return false; }
      return conns[peer].out.queued < Outboxes.MAX_QUEUED;
    }

    // ----- joining and leaving -----

    method Drop(peer: nat, queue: seq<Event>) returns (out: seq<Event>)
      modifies this`conns, this`frequency
      ensures peer !in old(conns) ==> Value() == old(Value()) && out == queue
      ensures peer in old(conns) ==>
              Value() == S.Drop(old(Value()), peer).0 && out == queue + [S.Drop(old(Value()), peer).1]
    {
      if peer !in conns { return queue; }
      var c := conns[peer];
      ApplyAvailability(c.has, -1);
      out := queue + [Dropped(peer, RequestsOf(c.pending))];
      conns := conns - {peer};
    }

    // the host's connections, in whatever order the map lists them
    method IdsOf(host: Host) returns (ids: seq<nat>)
      ensures forall p :: p in ids <==> p in conns && conns[p].host == host
      ensures forall j, k :: 0 <= j < k < |ids| ==> ids[j] != ids[k]
    {
      ids := [];
      var todo := conns.Keys;
      while todo != {}
        invariant todo <= conns.Keys
        invariant forall p :: p in ids <==> p in conns && p !in todo && conns[p].host == host
        invariant forall j, k :: 0 <= j < k < |ids| ==> ids[j] != ids[k]
        decreases todo
      {
        var p :| p in todo;
        todo := todo - {p};
        if conns[p].host == host {
          ids := ids + [p];
        }
      }
    }

    method Ban(host: Host) returns (events: seq<Event>, ghost order: seq<nat>)
      modifies this
      ensures Lists(order, old(Value()))
      ensures (Value(), events) == S.Ban(old(Value()), host, order)
    {
      order := KeySeq(conns);
      if host in banned { return [], order; }
      banned := banned + {host};
      ghost var before := Value();
      var ids := IdsOf(host);

      events := [];
      var k := 0;
      while k < |ids|
        invariant 0 <= k <= |ids|
        invariant (Value(), events) == DropHost(before, host, ids[..k])
        invariant forall p :: p in before.conns && p !in ids[..k] ==> p in conns && conns[p] == before.conns[p]
      {
        assert ids[..k + 1] == ids[..k] + [ids[k]];
        assert ids[k] in ids && ids[k] !in ids[..k];
        DropHostAppend(before, host, ids[..k], [ids[k]]);
        DropHostOne(Value(), host, ids[k]);
        events := Drop(ids[k], events);
        k := k + 1;
      }
      assert ids[..k] == ids;
      DropHostFinished(before, host, ids, order);
      order := ids + order;
    }

    // a finished handshake becomes a connection; 'reply' is our own handshake,
    // which inbound peers are sent now
    method Promote(k: nat, reply: Option<Msg>, queue: seq<Event>) returns (out: seq<Event>)
      requires k < |handshaking|
      modifies this
      ensures Value() == S.Promote(old(Value()), k, reply).0 && out == queue + [S.Promote(old(Value()), k, reply).1]
    {
      var id := nextId;
      nextId := nextId + 1;
      conns := conns[id := NewConn(handshaking[k])];
      handshaking := Without(handshaking, k);
      out := queue + [Joined(id)];
      if reply.Some? {
        SendTo(id, reply.value);
        assert conns == S.Promote(old(Value()), k, reply).0.conns;
      }
    }

    // ----- one incoming message -----

    method FindPendingIndex(pending: seq<PendingRequest>, req: BlockRequest) returns (k: nat)
      ensures k == FindPending(pending, req)
    {
      k := 0;
      while k < |pending| && pending[k].req != req
        invariant 0 <= k <= |pending|
        invariant forall j :: 0 <= j < k ==> pending[j].req != req
      {
        k := k + 1;
      }
    }

    // searches from the back
    method FindAskedIndex(queue: seq<Event>, ev: Event) returns (k: nat)
      ensures k == FindAsked(queue, ev)
    {
      k := |queue|;
      while k > 0 && queue[k - 1] != ev
        invariant 0 <= k <= |queue|
        invariant forall j :: k <= j < |queue| ==> queue[j] != ev
      {
        k := k - 1;
      }
      if k == 0 { return |queue|; }
      k := k - 1;
    }

    // remove_queued_piece, message by message
    method RemoveQueuedPiece(out: Outboxes.Outbox, r: BlockRequest) returns (out': Outboxes.Outbox)
      ensures out' == Outboxes.Cancel(out, r.piece, r.offset, r.length)
    {
      var it := if out.cursor > 0 && out.buffer != [] then 1 else 0;
      while it < |out.buffer|
        invariant Outboxes.Reachable(out) <= it <= |out.buffer|
        invariant forall j :: Outboxes.Reachable(out) <= j < it ==> !IsPiece(out.buffer[j], r.piece, r.offset, r.length)
      {
        if IsPiece(out.buffer[it], r.piece, r.offset, r.length) {
          return Outboxes.Outbox(Without(out.buffer, it), out.cursor, out.queued - Size(out.buffer[it]));
        }
        it := it + 1;
      }
      return out;
    }

    method OnChoke(peer: nat, queue: seq<Event>) returns (out: seq<Event>)
      requires peer in conns
      modifies this`conns
      ensures S.Handled(Value(), out, true) == S.HandleMessage(old(Value()), queue, peer, [MSG_CHOKE])
    {
      var c := conns[peer];
      c := c.(peerChoking := true);
      // whatever was asked of this peer goes back with the event
      out := queue + [Choked(peer, RequestsOf(c.pending))];
      c := c.(pending := []);
      conns := conns[peer := c];
    }

    method OnHave(peer: nat, queue: seq<Event>, payload: Bytes) returns (ok: bool)
      requires peer in conns
      modifies this`conns, this`frequency
      ensures S.Handled(Value(), queue, ok) == HandleHave(old(Value()), queue, peer, payload)
    {
      if |payload| != 4 { return false; }
      var index := ReadBe32(payload);
      if index >= |frequency| { return false; }
      var c := conns[peer];
      if index in c.has { return true; }
      conns := conns[peer := c.(has := c.has + {index})];
      frequency := frequency[index := (frequency[index] + 1) % 0x1_0000];
      assert frequency == Bumped(old(frequency), {index}, 1);
      return true;
    }

    method OnBitfield(peer: nat, queue: seq<Event>, payload: Bytes) returns (ok: bool)
      requires peer in conns
      modifies this`conns, this`frequency
      ensures S.Handled(Value(), queue, ok) == HandleBitfield(old(Value()), queue, peer, payload)
    {
      var c := conns[peer];
      if c.gotBitfield { return true; }
      c := c.(gotBitfield := true);
      conns := conns[peer := c];
      match FromBytes(payload, |frequency|)
      case None => return false;
      case Some(has) =>
        conns := conns[peer := c.(has := has)];
        ApplyAvailability(has, 1);
        assert conns == old(conns)[peer := c.(has := has)];
        return true;
    }

    method OnPiece(peer: nat, queue: seq<Event>, payload: Bytes) returns (out: seq<Event>, ok: bool)
      requires peer in conns
      modifies this`conns
      ensures S.Handled(Value(), out, ok) == HandlePiece(old(Value()), queue, peer, payload)
    {
      if |payload| < 8 { return queue, false; }
      var block := Block(ReadBe32(payload), ReadBe32(payload[4..]), payload[8..]);
      var c := conns[peer];
      var k := FindPendingIndex(c.pending, BlockRequest(block.piece, block.offset, |block.data|));
      if k == |c.pending| { return queue, true; }     // late or unrequested
      conns := conns[peer := c.(pending := Without(c.pending, k), snubbed := false)];
      return queue + [PieceArrived(peer, block)], true;
    }

    method OnCancel(peer: nat, queue: seq<Event>, payload: Bytes) returns (out: seq<Event>, ok: bool)
      requires peer in conns
      modifies this`conns
      ensures S.Handled(Value(), out, ok) == HandleCancel(old(Value()), queue, peer, payload)
    {
      if |payload| != 12 || ReadBe32(payload[8..]) > BLOCK_SIZE { return queue, false; }
      var r := TripleOf(payload);
      // a request of this batch that Session has not seen yet
      var k := FindAskedIndex(queue, BlockAsked(peer, r));
      if k < |queue| { return Without(queue, k), true; }
      var box := RemoveQueuedPiece(conns[peer].out, r);
      conns := conns[peer := conns[peer].(out := box)];
      return queue, true;
    }

    method HandleMessage(peer: nat, msg: Bytes, queue: seq<Event>) returns (out: seq<Event>, ok: bool)
      modifies this`conns, this`frequency
      ensures S.Handled(Value(), out, ok) == S.HandleMessage(old(Value()), queue, peer, msg)
    {
      out, ok := queue, true;
      if peer !in conns { return; }
      if msg == [] { return; }                        // keep-alive
      var id, payload := msg[0], msg[1..];
      if id == MSG_CHOKE {
        out := OnChoke(peer, queue);
      } else if id == MSG_UNCHOKE {
        conns := conns[peer := conns[peer].(peerChoking := false)];
        out := queue + [Unchoked(peer)];
      } else if id == MSG_INTERESTED {
        conns := conns[peer := conns[peer].(peerInterested := true)];
      } else if id == MSG_NOT_INTERESTED {
        conns := conns[peer := conns[peer].(peerInterested := false)];
      } else if id == MSG_HAVE {
        ok := OnHave(peer, queue, payload);
      } else if id == MSG_BITFIELD {
        ok := OnBitfield(peer, queue, payload);
      } else if id == MSG_REQUEST {
        if conns[peer].amChoking { return; }
        if |payload| != 12 { return queue, false; }
        if ReadBe32(payload[8..]) > BLOCK_SIZE { return queue, false; }
        out := queue + [BlockAsked(peer, TripleOf(payload))];
      } else if id == MSG_PIECE {
        out, ok := OnPiece(peer, queue, payload);
      } else if id == MSG_CANCEL {
        out, ok := OnCancel(peer, queue, payload);
      }
    }
  }

  // ----- dropping in some order -----

  // some order the keys could be listed in
  ghost function KeySeq(conns: map<nat, Conn>): (order: seq<nat>)
    ensures forall p :: p in conns <==> p in order
  {
    SetSeq(conns.Keys)
  }

  ghost function SetSeq(s: set<nat>): (order: seq<nat>)
    ensures forall p :: p in s <==> p in order
  {
    if s == {} then [] else var p :| p in s; [p] + SetSeq(s - {p})
  }

  lemma {:induction false} DropHostAppend(sw: Swarm, host: Host, a: seq<nat>, b: seq<nat>)
    ensures var (sw1, evs1) := DropHost(sw, host, a);
            var (sw2, evs2) := DropHost(sw1, host, b);
            DropHost(sw, host, a + b) == (sw2, evs1 + evs2)
    decreases |a|
  {
    if a == [] {
      assert a + b == b;
      assert [] + DropHost(sw, host, b).1 == DropHost(sw, host, b).1;
    } else {
      assert (a + b)[1..] == a[1..] + b;
      if a[0] in sw.conns && sw.conns[a[0]].host == host {
        var (sw1, ev) := S.Drop(sw, a[0]);
        DropHostAppend(sw1, host, a[1..], b);
        var (sw2, evs1) := DropHost(sw1, host, a[1..]);
        var evs2 := DropHost(sw2, host, b).1;
        assert [ev] + (evs1 + evs2) == [ev] + evs1 + evs2;
      } else {
        DropHostAppend(sw, host, a[1..], b);
      }
    }
  }

  lemma DropHostOne(sw: Swarm, host: Host, p: nat)
    requires p in sw.conns && sw.conns[p].host == host
    ensures DropHost(sw, host, [p]) == (S.Drop(sw, p).0, [S.Drop(sw, p).1])
  {
    var order := [p];
    assert order[0] == p && order[1..] == [];
    var (sw1, ev) := S.Drop(sw, p);
    var (sw2, evs) := DropHost(sw1, host, order[1..]);
    assert sw2 == sw1 && [ev] + evs == [ev];
  }

  // once all of the host's connections are gone the rest of the list does nothing
  lemma DropHostFinished(sw: Swarm, host: Host, ids: seq<nat>, rest: seq<nat>)
    requires forall p :: p in sw.conns && sw.conns[p].host == host ==> p in ids
    ensures DropHost(sw, host, ids + rest) == DropHost(sw, host, ids)
  {
    var (sw1, evs) := DropHost(sw, host, ids);
    DropHostKeeps(sw, host, ids);
    DropHostDone(sw1, host, rest);
    DropHostAppend(sw, host, ids, rest);
    assert evs + [] == evs;
  }

  lemma {:induction false} DropHostKeeps(sw: Swarm, host: Host, order: seq<nat>)
    ensures var sw' := DropHost(sw, host, order).0;
            && (forall p :: p in sw'.conns ==> p in sw.conns && sw'.conns[p] == sw.conns[p])
            && (forall p :: p in sw'.conns && p in order ==> sw'.conns[p].host != host)
    decreases |order|
  {
    if order == [] {
    } else {
      if order[0] in sw.conns && sw.conns[order[0]].host == host {
        DropHostKeeps(S.Drop(sw, order[0]).0, host, order[1..]);
      } else {
        DropHostKeeps(sw, host, order[1..]);
      }
    }
  }

  lemma {:induction false} DropHostDone(sw: Swarm, host: Host, order: seq<nat>)
    requires forall p :: p in sw.conns ==> sw.conns[p].host != host
    ensures DropHost(sw, host, order) == (sw, [])
    decreases |order|
  {
    if order == [] {
    } else {
      DropHostDone(sw, host, order[1..]);
    }
  }
}
