// Dispatching an event keeps the invariant, whatever the event is.
module Dispatching {
  import opened Types
  import opened Torrents
  import opened Wire
  import opened Bitfields
  import opened Swarms
  import opened Engine
  import opened Invariants
  import opened Delivery
  import opened Membership
  import Outboxes
  import P = Pieces
  import B = Bans

  lemma TailOk(q: seq<Event>, nextId: nat, hosts: map<nat, Host>)
    requires q != [] && QueueOk(q, nextId, hosts)
    ensures QueueOk(q[1..], nextId, hosts)
    ensures !q[0].Joined? ==> forall j :: Joined(j) !in q
    ensures forall j :: q[0] != Joined(j) ==> (Joined(j) in q[1..] <==> Joined(j) in q)
    ensures forall j :: q[0] == Joined(j) ==> Joined(j) !in q[1..]
  {
    assert forall k :: 0 <= k < |q| && q[k].Joined? ==> q[0].Joined?;
  }

  // an event that holds no requests and concerns no connection is just dropped
  lemma PopInv(t: Torrent, x: State)
    requires Inv(t, x) && x.s.queue != []
    requires x.s.queue[0].Unchoked? || x.s.queue[0].BlockAsked?
             || (x.s.queue[0].Joined? && x.s.queue[0].peer !in x.s.swarm.conns)
    ensures Inv(t, Queued(x, x.s.queue[1..]))
  {
    TailOk(x.s.queue, x.s.swarm.nextId, x.s.bans.hosts);
    forall r ensures QueueHolds(x.s.queue[1..], r) == QueueHolds(x.s.queue, r) {
    }
    QueuedInv(t, x, x.s.queue[1..]);
  }

  // ----- requests handed back -----

  lemma ReleasedInv(t: Torrent, x: State)
    requires Inv(t, x) && x.s.queue != [] && (x.s.queue[0].Choked? || x.s.queue[0].Dropped?)
    ensures Inv(t, x.(s := x.s.(queue := x.s.queue[1..], pieces := P.Release(x.s.pieces, x.s.queue[0].released))))
  {
    var released, q := x.s.queue[0].released, x.s.queue[1..];
    var y := x.(s := x.s.(queue := q, pieces := P.Release(x.s.pieces, released)));
    TailOk(x.s.queue, x.s.swarm.nextId, x.s.bans.hosts);
    forall r ensures InFlight(x.s.swarm.conns, x.s.swarm.nextId, r) + multiset(released)[r] + QueueHolds(q, r) ==
                     (if P.IsRequested(t, x.s.pieces, r) then 1 else 0)
    {
      assert QueueHolds(x.s.queue, r) == multiset(released)[r] + QueueHolds(q, r);
    }
    ConservedRelease(t, x.s.pieces, x.s.swarm.conns, x.s.swarm.nextId, released, q);
    ReleaseOnly(x.s.pieces, released);
    ReleaseAttributed(t, x.s.pieces, y.s.pieces, x.s.bans, x.h.arrivals);
    forall j | j in y.s.swarm.conns ensures ConnOk(t, y.s, DeliveredTo(y.h, j), j, y.s.swarm.conns[j]) {
      ConnCarries(t, x.s, y.s, DeliveredTo(x.h, j), j, x.s.swarm.conns[j]);
    }
  }

  // ----- newcomers -----

  // the connection after the greeting
  function Greeted(t: Torrent, c: Conn, have: set<nat>, haveCount: nat): Conn
  {
    var c1 := Enqueued(c, BitfieldMsg(Pack(have, t.Count())));
    var c2 := Enqueued(c1.(amChoking := false), Control(MSG_UNCHOKE));
    if haveCount == t.Count() then c2 else Enqueued(c2.(amInterested := true), Control(MSG_INTERESTED))
  }

  lemma GreetIs(t: Torrent, s: Session, p: nat)
    requires p in s.swarm.conns
    ensures Greet(t, s, p) ==
            s.(swarm := Put(s.swarm, p, Greeted(t, s.swarm.conns[p], s.pieces.have, s.pieces.haveCount)))
  {
    var g := Greeted(t, s.swarm.conns[p], s.pieces.have, s.pieces.haveCount);
    assert Greet(t, s, p).swarm.conns == s.swarm.conns[p := g];
  }

  // The first thing a peer is told is exactly what is owned.
  lemma GreetingTells(t: Torrent, have: set<nat>, d: seq<Msg>, buffer: seq<Msg>, more: seq<Msg>)
    requires forall i :: i in have ==> i < t.Count()
    requires Scan(d + buffer, t.Count()) == Fresh
    requires more == [Control(MSG_UNCHOKE)] || more == [Control(MSG_UNCHOKE), Control(MSG_INTERESTED)]
    ensures Scan(d + (buffer + [BitfieldMsg(Pack(have, t.Count()))] + more), t.Count()) == Told(have)
  {
    hide Pack, Scan;
    var n, m := t.Count(), BitfieldMsg(Pack(have, t.Count()));
    PackRoundTrip(have, n);
    var log := d + buffer;
    ScanAppend(log, m, n);
    ScanAppend(log + [m], Control(MSG_UNCHOKE), n);
    ScanAppend(log + [m] + [Control(MSG_UNCHOKE)], Control(MSG_INTERESTED), n);
    if more == [Control(MSG_UNCHOKE)] {
      assert d + (buffer + [m] + more) == log + [m] + [Control(MSG_UNCHOKE)];
    } else {
      assert d + (buffer + [m] + more) == log + [m] + [Control(MSG_UNCHOKE)] + [Control(MSG_INTERESTED)];
    }
  }

  lemma GreetedOut(t: Torrent, c: Conn, have: set<nat>, haveCount: nat) returns (more: seq<Msg>)
    requires SendOk(c.out)
    ensures more == [Control(MSG_UNCHOKE)] || more == [Control(MSG_UNCHOKE), Control(MSG_INTERESTED)]
    ensures var g := Greeted(t, c, have, haveCount);
            && SendOk(g.out)
            && g.out.buffer == c.out.buffer + [BitfieldMsg(Pack(have, t.Count()))] + more
            && g.host == c.host && g.pending == c.pending && g.has == c.has
  {
    var m, u, i := BitfieldMsg(Pack(have, t.Count())), Control(MSG_UNCHOKE), Control(MSG_INTERESTED);
    var o1 := Outboxes.Enqueue(c.out, m);
    var o2 := Outboxes.Enqueue(o1, u);
    Outboxes.EnqueueWf(c.out, m);
    Outboxes.EnqueueWf(o1, u);
    Outboxes.EnqueueWf(o2, i);
    more := if haveCount == t.Count() then [u] else [u, i];
    assert c.out.buffer + [m] + [u] + [i] == c.out.buffer + [m] + [u, i];
  }

  lemma GreetedConn(t: Torrent, s: Session, d: seq<Msg>, p: nat, c: Conn, s': Session)
    requires t.Valid() && |s.disk| == t.totalLength && ConnOk(t, s, d, p, c) && Joined(p) in s.queue
    requires Joined(p) !in s'.queue
    requires s' == s.(queue := s'.queue, bans := s'.bans, swarm := s'.swarm)
    requires s'.bans.hosts == s.bans.hosts[p := c.host] && s'.swarm.nextId == s.swarm.nextId
    requires s'.swarm.banned == s.swarm.banned
    requires forall i :: i in s.pieces.have ==> i < t.Count()
    ensures ConnOk(t, s', d, p, Greeted(t, c, s.pieces.have, s.pieces.haveCount))
  {
    var g := Greeted(t, c, s.pieces.have, s.pieces.haveCount);
    var more := GreetedOut(t, c, s.pieces.have, s.pieces.haveCount);
    GreetingTells(t, s.pieces.have, d, c.out.buffer, more);
    assert forall m :: m in d + g.out.buffer ==> m in d + c.out.buffer || !m.PieceMsg?;
  }

  lemma MoreHosts(t: Torrent, ps: P.Pieces, bs: B.Bans, arrivals: map<(nat, nat), Arrival>, p: nat, host: Host)
    requires t.Valid() && P.Wf(t, ps) && Attributed(t, ps, bs, arrivals) && EvidenceOk(t, ps.have, bs)
    ensures Attributed(t, ps, B.OnJoin(bs, p, host), arrivals) && EvidenceOk(t, ps.have, B.OnJoin(bs, p, host))
  {
    forall i, b | i in ps.active && 0 <= b < |ps.active[i].states| && ps.active[i].states[b] == P.Received
      ensures SlotOk(t, ps.active[i].data, B.OnJoin(bs, p, host), arrivals, i, b)
    {
      assert SlotOk(t, ps.active[i].data, bs, arrivals, i, b);
    }
  }

  lemma TailHosts(q: seq<Event>, nextId: nat, hosts: map<nat, Host>, p: nat, host: Host)
    requires q != [] && QueueOk(q, nextId, hosts) && q[0] == Joined(p)
    ensures QueueOk(q[1..], nextId, hosts[p := host])
  {
    forall k | 0 <= k < |q[1..]| ensures EventOk(q[1..][k], nextId, hosts[p := host]) {
      assert EventOk(q[k + 1], nextId, hosts);
      assert q[k + 1] != Joined(p);
    }
  }

  // x after its first event, with p known and its connection replaced
  function Welcomed(x: State, p: nat, g: Conn): State
    requires x.s.queue != []
  {
    x.(s := x.s.(queue := x.s.queue[1..], bans := B.OnJoin(x.s.bans, p, g.host), swarm := Put(x.s.swarm, p, g)))
  }

  lemma WelcomedGlobal(t: Torrent, x: State, p: nat, g: Conn)
    requires Global(t, x) && x.s.queue != [] && x.s.queue[0] == Joined(p) && p in x.s.swarm.conns
    requires p < x.s.swarm.nextId
    requires var c := x.s.swarm.conns[p]; g.host == c.host && g.pending == c.pending && g.has == c.has
    ensures Global(t, Welcomed(x, p, g))
  {
    var sw := x.s.swarm;
    ConservedPut(t, x.s.pieces, sw.conns, sw.nextId, x.s.queue, p, g, x.s.queue[1..]);
    FrequencyKept(sw.conns, p, g, sw.frequency, x.h.leaked);
    TailHosts(x.s.queue, sw.nextId, x.s.bans.hosts, p, g.host);
    MoreHosts(t, x.s.pieces, x.s.bans, x.h.arrivals, p, g.host);
    assert sw.conns[p := g].Keys == sw.conns.Keys;
  }

  lemma WelcomedConns(t: Torrent, x: State, p: nat)
    requires Inv(t, x) && x.s.queue != [] && x.s.queue[0] == Joined(p) && p in x.s.swarm.conns
    ensures Conns(t, Welcomed(x, p, Greeted(t, x.s.swarm.conns[p], x.s.pieces.have, x.s.pieces.haveCount)))
  {
    var c := x.s.swarm.conns[p];
    var y := Welcomed(x, p, Greeted(t, c, x.s.pieces.have, x.s.pieces.haveCount));
    TailOk(x.s.queue, x.s.swarm.nextId, x.s.bans.hosts);
    forall j | j in y.s.swarm.conns ensures ConnOk(t, y.s, DeliveredTo(y.h, j), j, y.s.swarm.conns[j]) {
      assert ConnOk(t, x.s, DeliveredTo(x.h, j), j, x.s.swarm.conns[j]);
      if j == p {
        GreetedConn(t, x.s, DeliveredTo(x.h, p), p, c, y.s);
      }
    }
  }

  lemma OnJoinedIs(t: Torrent, x: State, p: nat)
    requires x.s.queue != [] && p in x.s.swarm.conns
    ensures x.(s := OnJoined(t, x.s.(queue := x.s.queue[1..]), p)) ==
            Welcomed(x, p, Greeted(t, x.s.swarm.conns[p], x.s.pieces.have, x.s.pieces.haveCount))
  {
    GreetIs(t, x.s.(queue := x.s.queue[1..], bans := B.OnJoin(x.s.bans, p, x.s.swarm.conns[p].host)), p);
  }

  lemma JoinedInv(t: Torrent, x: State, p: nat)
    requires Inv(t, x) && x.s.queue != [] && x.s.queue[0] == Joined(p)
    ensures Inv(t, x.(s := OnJoined(t, x.s.(queue := x.s.queue[1..]), p)))
  {
    if p in x.s.swarm.conns {
      var c := x.s.swarm.conns[p];
      assert ConnOk(t, x.s, DeliveredTo(x.h, p), p, c);
      var more := GreetedOut(t, c, x.s.pieces.have, x.s.pieces.haveCount);
      WelcomedGlobal(t, x, p, Greeted(t, c, x.s.pieces.have, x.s.pieces.haveCount));
      WelcomedConns(t, x, p);
      OnJoinedIs(t, x, p);
    } else {
      PopInv(t, x);
    }
  }

  // ----- serving a block -----

  lemma ServeConn(t: Torrent, s: Session, d: seq<Msg>, p: nat, c: Conn, m: Msg)
    requires t.Valid() && |s.disk| == t.totalLength && ConnOk(t, s, d, p, c) && Joined(p) !in s.queue
    requires m.PieceMsg? && WfMsg(m) && ServedOk(t, s.pieces.have, s.disk, m) && |m.data| <= BLOCK_SIZE
    requires c.out.queued < Outboxes.MAX_QUEUED
    ensures ConnOk(t, s, d, p, Enqueued(c, m))
  {
    Outboxes.EnqueueWf(c.out, m);
    Outboxes.PieceTotalBound(c.out.buffer);
    ScanAppend(d + c.out.buffer, m, t.Count());
    assert d + (c.out.buffer + [m]) == d + c.out.buffer + [m];
  }

  lemma ServeInv(t: Torrent, x: State, p: nat, m: Msg)
    requires Inv(t, x) && p in x.s.swarm.conns && Joined(p) !in x.s.queue
    requires m.PieceMsg? && WfMsg(m) && ServedOk(t, x.s.pieces.have, x.s.disk, m) && |m.data| <= BLOCK_SIZE
    requires x.s.swarm.conns[p].out.queued < Outboxes.MAX_QUEUED
    ensures Inv(t, With(x, p, Enqueued(x.s.swarm.conns[p], m), x.s.queue))
  {
    var c := x.s.swarm.conns[p];
    assert ConnOk(t, x.s, DeliveredTo(x.h, p), p, c);
    ServeConn(t, x.s, DeliveredTo(x.h, p), p, c, m);
    WithInv(t, x, p, Enqueued(c, m), x.s.queue);
  }

  // the block a request is answered with, if it is answered
  lemma AnswerOk(t: Torrent, s: Session, req: BlockRequest) returns (m: Msg)
    requires Shaped(t, s) && req.piece in s.pieces.have && req.offset + req.length <= t.Size(req.piece)
    requires req.length <= BLOCK_SIZE && req.offset < TWO_32
    ensures m == PieceMsg(req.piece, req.offset, t.PieceOf(s.disk, req.piece)[req.offset..req.offset + req.length])
    ensures WfMsg(m) && ServedOk(t, s.pieces.have, s.disk, m) && |m.data| <= BLOCK_SIZE
  {
    m := PieceMsg(req.piece, req.offset, t.PieceOf(s.disk, req.piece)[req.offset..req.offset + req.length]);
  }

  lemma OnAskedIs(t: Torrent, s: Session, p: nat, req: BlockRequest) returns (m: Option<Msg>)
    requires Shaped(t, s) && req.length <= BLOCK_SIZE && req.offset < TWO_32
    ensures OnAsked(t, s, p, req) ==
            if m.Some? && CanQueue(s.swarm, p) then s.(swarm := Put(s.swarm, p, Enqueued(s.swarm.conns[p], m.value)))
            else s
    ensures m.Some? ==>
              && m.value.PieceMsg? && WfMsg(m.value) && |m.value.data| <= BLOCK_SIZE
              && ServedOk(t, s.pieces.have, s.disk, m.value)
  {
    if req.piece in s.pieces.have && req.offset + req.length <= t.Size(req.piece) {
      var a := AnswerOk(t, s, req);
      m := Some(a);
    } else {
      m := None;
    }
  }

  lemma AnsweredInv(t: Torrent, x: State, p: nat, req: BlockRequest, y: State)
    requires Inv(t, x) && Joined(p) !in x.s.queue && req.length <= BLOCK_SIZE && req.offset < TWO_32
    requires y == x.(s := OnAsked(t, x.s, p, req))
    ensures Inv(t, y)
  {
    var m := OnAskedIs(t, x.s, p, req);
    if m.Some? && CanQueue(x.s.swarm, p) {
      ServeInv(t, x, p, m.value);
      assert y == With(x, p, Enqueued(x.s.swarm.conns[p], m.value), x.s.queue);
    } else {
      assert y == x;
    }
  }

  lemma AskedInv(t: Torrent, x: State, p: nat, req: BlockRequest)
    requires Inv(t, x) && x.s.queue != [] && x.s.queue[0] == BlockAsked(p, req)
    ensures Inv(t, x.(s := OnAsked(t, x.s.(queue := x.s.queue[1..]), p, req)))
  {
    PopInv(t, x);
    TailOk(x.s.queue, x.s.swarm.nextId, x.s.bans.hosts);
    assert EventOk(x.s.queue[0], x.s.swarm.nextId, x.s.bans.hosts);
    AnsweredInv(t, Queued(x, x.s.queue[1..]), p, req, x.(s := OnAsked(t, x.s.(queue := x.s.queue[1..]), p, req)));
  }
}
