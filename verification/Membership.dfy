// Connections coming and going keep the invariant: handshakes, drops, bans and
// the release of what a dropped peer was asked for.
module Membership {
  import opened Types
  import opened Torrents
  import opened Wire
  import opened Swarms
  import opened Engine
  import opened Invariants
  import opened Delivery
  import Outboxes
  import P = Pieces
  import B = Bans

  // ----- handshakes -----

  lemma HandshakingInv(t: Torrent, x: State, handshaking: seq<Host>)
    requires Inv(t, x) && |x.s.swarm.conns| + |handshaking| <= MAX_PEERS
    ensures Inv(t, x.(s := x.s.(swarm := x.s.swarm.(handshaking := handshaking))))
  {
    var y := x.(s := x.s.(swarm := x.s.swarm.(handshaking := handshaking)));
    forall j | j in y.s.swarm.conns ensures ConnOk(t, y.s, DeliveredTo(y.h, j), j, y.s.swarm.conns[j]) {
      ConnCarries(t, x.s, y.s, DeliveredTo(x.h, j), j, x.s.swarm.conns[j]);
    }
  }

  lemma SumExtend(f: nat -> nat, g: nat -> nat, n: nat)
    requires forall j :: 0 <= j < n ==> f(j) == g(j)
    ensures SumBelow(g, n + 1) == SumBelow(f, n) + g(n)
  {
    SumSame(f, g, n);
  }

  lemma ConservedJoin(t: Torrent, ps: P.Pieces, conns: map<nat, Conn>, n: nat, q: seq<Event>, c: Conn)
    requires t.Valid() && P.Wf(t, ps) && Conserved(t, ps, conns, n, q)
    requires c.pending == []
    ensures Conserved(t, ps, conns[n := c], n + 1, q + [Joined(n)])
  {
    AppendHolds(q, Joined(n));
    forall r ensures InFlight(conns[n := c], n + 1, r) + QueueHolds(q + [Joined(n)], r) ==
                     (if P.IsRequested(t, ps, r) then 1 else 0)
    {
      SumExtend(AsksAt(conns, r), AsksAt(conns[n := c], r), n);
      assert RequestsOf(c.pending) == [];
    }
  }

  lemma NewConnOk(t: Torrent, s: Session, c: Conn, n: nat, host: Host, reply: Option<Msg>)
    requires t.Valid() && |s.disk| == t.totalLength
    requires c == if reply.Some? then Enqueued(NewConn(host), reply.value) else NewConn(host)
    requires reply.Some? ==> reply.value.Handshake? && WfMsg(reply.value)
    requires n < s.swarm.nextId && host !in s.swarm.banned && Joined(n) in s.queue && n !in s.bans.hosts
    ensures ConnOk(t, s, [], n, c)
  {
    Outboxes.PieceTotalBound([]);
    if reply.Some? {
      Outboxes.EnqueueWf(Outboxes.EMPTY, reply.value);
      ScanAppend([], reply.value, t.Count());
      assert [] + c.out.buffer == [reply.value];
    }
  }

  lemma JoinQueue(q: seq<Event>, n: nat, hosts: map<nat, Host>)
    requires QueueOk(q, n, hosts) && n !in hosts && forall j :: 0 <= j < |q| ==> q[j].Joined?
    ensures QueueOk(q + [Joined(n)], n + 1, hosts)
  {
    forall k | 0 <= k < |q| ensures EventOk(q[k], n + 1, hosts) && q[k] != Joined(n) {
      assert EventOk(q[k], n, hosts);
    }
  }

  // x with handshake k turned into connection c
  function Promoted(x: State, k: nat, c: Conn): State
    requires k < |x.s.swarm.handshaking|
  {
    var sw := x.s.swarm;
    x.(s := x.s.(
         swarm := sw.(conns := sw.conns[sw.nextId := c], handshaking := Without(sw.handshaking, k),
                      nextId := sw.nextId + 1),
         queue := x.s.queue + [Joined(sw.nextId)]))
  }

  lemma PromotedIds(x: State, k: nat, c: Conn)
    requires k < |x.s.swarm.handshaking| && IdsOk(x.s, x.h) && x.s.swarm.nextId !in x.s.swarm.conns
    ensures IdsOk(Promoted(x, k, c).s, x.h)
  {
    assert Promoted(x, k, c).s.swarm.conns.Keys == x.s.swarm.conns.Keys + {x.s.swarm.nextId};
  }

  lemma PromotedBooks(t: Torrent, x: State, k: nat, c: Conn)
    requires Books(t, x) && k < |x.s.swarm.handshaking| && x.s.swarm.nextId !in x.s.swarm.conns
    requires c.pending == [] && c.has == {} && forall j :: 0 <= j < |x.s.queue| ==> x.s.queue[j].Joined?
    ensures Books(t, Promoted(x, k, c))
  {
    var n, sw := x.s.swarm.nextId, x.s.swarm;
    ConservedJoin(t, x.s.pieces, sw.conns, n, x.s.queue, c);
    FrequencySame(sw.conns, sw.conns[n := c], sw.frequency, x.h.leaked);
    JoinQueue(x.s.queue, n, x.s.bans.hosts);
    PromotedIds(x, k, c);
  }

  lemma PromotedHoldings(t: Torrent, x: State, k: nat, c: Conn)
    requires Global(t, x) && k < |x.s.swarm.handshaking| && Shaped(t, Promoted(x, k, c).s)
    ensures Holdings(t, Promoted(x, k, c))
  {
  }

  lemma PromotedConns(t: Torrent, x: State, k: nat, c: Conn)
    requires t.Valid() && |x.s.disk| == t.totalLength && Conns(t, x) && k < |x.s.swarm.handshaking|
    requires DeliveredTo(x.h, x.s.swarm.nextId) == [] && ConnOk(t, Promoted(x, k, c).s, [], x.s.swarm.nextId, c)
    ensures Conns(t, Promoted(x, k, c))
  {
    var y := Promoted(x, k, c);
    forall j | j in y.s.swarm.conns ensures ConnOk(t, y.s, DeliveredTo(y.h, j), j, y.s.swarm.conns[j]) {
      if j != x.s.swarm.nextId {
        ConnCarries(t, x.s, y.s, DeliveredTo(x.h, j), j, x.s.swarm.conns[j]);
      }
    }
  }

  lemma FinishInv(t: Torrent, x: State, k: nat, reply: Option<Msg>, y: State)
    requires Inv(t, x) && FinishStep(x, k, reply, y)
    ensures Inv(t, y)
  {
    var n, newcomer := x.s.swarm.nextId, NewConn(x.s.swarm.handshaking[k]);
    var c := if reply.Some? then Enqueued(newcomer, reply.value) else newcomer;
    assert n !in x.s.swarm.conns;
    NewConnOk(t, Promoted(x, k, c).s, c, n, x.s.swarm.handshaking[k], reply);
    assert y == Promoted(x, k, c);
    PromotedBooks(t, x, k, c);
    PromotedHoldings(t, x, k, c);
    PromotedConns(t, x, k, c);
  }

  // ----- leaving -----

  lemma FrequencyDrop(conns: map<nat, Conn>, f: seq<nat>, leaked: seq<nat>, p: nat)
    requires p in conns && FrequencyOk(conns, f, leaked)
    ensures FrequencyOk(conns - {p}, Bumped(f, conns[p].has, -1), leaked)
  {
    var f' := Bumped(f, conns[p].has, -1);
    forall i | 0 <= i < |f| ensures CountOk(f'[i], Holders(conns - {p}, i), leaked[i]) {
      assert CountOk(f[i], Holders(conns, i), leaked[i]);
      assert HolderSet(conns - {p}, i) == HolderSet(conns, i) - {p};
    }
  }

  // sw' is sw with some connections dropped, one Dropped event for each
  ghost predicate Dropping(sw: Swarm, evs: seq<Event>, sw': Swarm)
  {
    && sw' == sw.(conns := sw'.conns, frequency := sw'.frequency)
    && (forall p :: p in sw'.conns ==> p in sw.conns && sw'.conns[p] == sw.conns[p])
    && (forall k :: 0 <= k < |evs| ==> evs[k].Dropped?)
    && (forall r :: InFlight(sw.conns, sw.nextId, r) == InFlight(sw'.conns, sw.nextId, r) + QueueHolds(evs, r))
    && |sw'.conns| <= |sw.conns|
    && |sw'.frequency| == |sw.frequency|
  }

  lemma DropDropping(sw: Swarm, p: nat)
    requires p in sw.conns && p < sw.nextId
    ensures Dropping(sw, [Drop(sw, p).1], Drop(sw, p).0)
  {
    var (sw', ev) := Drop(sw, p);
    forall r ensures InFlight(sw.conns, sw.nextId, r) == InFlight(sw'.conns, sw.nextId, r) + QueueHolds([ev], r) {
      InFlightRemove(sw.conns, sw.nextId, p, r);
      assert QueueHolds([ev], r) == EventHolds(ev, r);
    }
    assert sw.conns.Keys == sw'.conns.Keys + {p};
  }

  lemma DroppingTrans(a: Swarm, e: seq<Event>, b: Swarm, f: seq<Event>, c: Swarm)
    requires Dropping(a, e, b) && Dropping(b, f, c)
    ensures Dropping(a, e + f, c)
  {
    forall r ensures InFlight(a.conns, a.nextId, r) == InFlight(c.conns, a.nextId, r) + QueueHolds(e + f, r) {
      QueueAppend(e, f, r);
    }
  }

  lemma DroppingNone(sw: Swarm)
    ensures Dropping(sw, [], sw)
  {
  }

  // Dropping a host's connections loses none of their requests, keeps the
  // counts right and leaves no listed connection of that host.
  lemma {:induction false} DropHostDrops(sw: Swarm, host: Host, order: seq<nat>, leaked: seq<nat>)
    requires FrequencyOk(sw.conns, sw.frequency, leaked) && forall p :: p in sw.conns ==> p < sw.nextId
    ensures var (sw', evs) := DropHost(sw, host, order);
            && Dropping(sw, evs, sw')
            && FrequencyOk(sw'.conns, sw'.frequency, leaked)
            && (forall p :: p in sw'.conns && p in order ==> sw'.conns[p].host != host)
    decreases |order|
  {
    if order == [] {
      DroppingNone(sw);
    } else if order[0] in sw.conns && sw.conns[order[0]].host == host {
      var (sw1, ev) := Drop(sw, order[0]);
      DropDropping(sw, order[0]);
      FrequencyDrop(sw.conns, sw.frequency, leaked, order[0]);
      DropHostDrops(sw1, host, order[1..], leaked);
      var (sw2, evs) := DropHost(sw1, host, order[1..]);
      DroppingTrans(sw, [ev], sw1, evs, sw2);
    } else {
      DropHostDrops(sw, host, order[1..], leaked);
    }
  }

  // ----- releasing -----

  // releasing requests touches nothing but Requested marks
  ghost predicate OnlyReleases(ps: P.Pieces, ps': P.Pieces)
  {
    && ps' == ps.(active := ps'.active)
    && ps'.active.Keys == ps.active.Keys
    && forall i :: i in ps.active ==>
         && ps'.active[i] == ps.active[i].(states := ps'.active[i].states)
         && |ps'.active[i].states| == |ps.active[i].states|
         && forall b :: 0 <= b < |ps.active[i].states| ==>
              (ps'.active[i].states[b] == P.Received <==> ps.active[i].states[b] == P.Received)
  }

  lemma ReleaseOnly(ps: P.Pieces, reqs: seq<BlockRequest>)
    ensures OnlyReleases(ps, P.Release(ps, reqs))
  {
  }

  lemma OnlyReleasesTrans(a: P.Pieces, b: P.Pieces, c: P.Pieces)
    requires OnlyReleases(a, b) && OnlyReleases(b, c)
    ensures OnlyReleases(a, c)
  {
  }

  lemma ReleaseAttributed(t: Torrent, ps: P.Pieces, ps': P.Pieces, bs: B.Bans, arrivals: map<(nat, nat), Arrival>)
    requires t.Valid() && P.Wf(t, ps) && P.Wf(t, ps') && OnlyReleases(ps, ps') && Attributed(t, ps, bs, arrivals)
    ensures Attributed(t, ps', bs, arrivals)
  {
    forall i, b | i in ps'.active && 0 <= b < |ps'.active[i].states| && ps'.active[i].states[b] == P.Received
      ensures SlotOk(t, ps'.active[i].data, bs, arrivals, i, b)
    {
      assert SlotOk(t, ps.active[i].data, bs, arrivals, i, b);
    }
    forall i, b | (i, b) in arrivals ensures Holds(ps', i, b) {
      assert Holds(ps, i, b);
    }
  }

  // Giving back the requests at the head of the queue.
  lemma ConservedRelease(t: Torrent, ps: P.Pieces, conns: map<nat, Conn>, n: nat, released: seq<BlockRequest>,
                         q: seq<Event>)
    requires t.Valid() && P.Wf(t, ps)
    requires forall r ::
               InFlight(conns, n, r) + multiset(released)[r] + QueueHolds(q, r) ==
               (if P.IsRequested(t, ps, r) then 1 else 0)
    ensures P.Wf(t, P.Release(ps, released))
    ensures Conserved(t, P.Release(ps, released), conns, n, q)
  {
    forall k | 0 <= k < |released| ensures P.IsRequested(t, ps, released[k]) {
      assert released[k] in multiset(released);
      assert InFlight(conns, n, released[k]) + multiset(released)[released[k]] + QueueHolds(q, released[k]) > 0;
    }
    P.ReleaseGivesBack(t, ps, released);
    forall r ensures InFlight(conns, n, r) + QueueHolds(q, r) ==
        (if P.IsRequested(t, P.Release(ps, released), r) then 1 else 0) {
      assert r in released <==> r in multiset(released);
      assert InFlight(conns, n, r) + multiset(released)[r] + QueueHolds(q, r) ==
          (if P.IsRequested(t, ps, r) then 1 else 0);
    }
  }

  lemma {:induction false} ConservedReleaseAll(t: Torrent, ps: P.Pieces, conns: map<nat, Conn>, n: nat,
                                               evs: seq<Event>, q: seq<Event>)
    requires t.Valid() && P.Wf(t, ps) && forall k :: 0 <= k < |evs| ==> evs[k].Dropped?
    requires forall r ::
               InFlight(conns, n, r) + QueueHolds(evs, r) + QueueHolds(q, r) ==
               (if P.IsRequested(t, ps, r) then 1 else 0)
    ensures P.Wf(t, ReleaseEvents(ps, evs)) && OnlyReleases(ps, ReleaseEvents(ps, evs))
    ensures Conserved(t, ReleaseEvents(ps, evs), conns, n, q)
    decreases |evs|
  {
    if evs == [] {
    } else {
      var released, rest := evs[0].released, evs[1..];
      var ps1 := P.Release(ps, released);
      forall r ensures InFlight(conns, n, r) + multiset(released)[r] + QueueHolds(rest + q, r) ==
                       (if P.IsRequested(t, ps, r) then 1 else 0)
      {
        QueueAppend(rest, q, r);
      }
      ConservedRelease(t, ps, conns, n, released, rest + q);
      forall r ensures InFlight(conns, n, r) + QueueHolds(rest, r) + QueueHolds(q, r) ==
                       (if P.IsRequested(t, ps1, r) then 1 else 0)
      {
        QueueAppend(rest, q, r);
        assert InFlight(conns, n, r) + QueueHolds(rest + q, r) == (if P.IsRequested(t, ps1, r) then 1 else 0);
      }
      ReleaseOnly(ps, released);
      ConservedReleaseAll(t, ps1, conns, n, rest, q);
      OnlyReleasesTrans(ps, ps1, ReleaseEvents(ps1, rest));
    }
  }

  // ----- steps -----

  lemma DropGlobal(t: Torrent, x: State, p: nat, y: State)
    requires Global(t, x) && DropStep(x, p, y) && p < x.s.swarm.nextId
    ensures Global(t, y)
  {
    var (sw, ev) := Drop(x.s.swarm, p);
    DropDropping(x.s.swarm, p);
    FrequencyDrop(x.s.swarm.conns, x.s.swarm.frequency, x.h.leaked, p);
    AppendHolds(x.s.queue, ev);
    AppendOk(x.s.queue, ev, x.s.swarm.nextId, x.s.bans.hosts);
    forall r ensures InFlight(sw.conns, sw.nextId, r) + QueueHolds(y.s.queue, r) ==
                     (if P.IsRequested(t, x.s.pieces, r) then 1 else 0)
    {
      assert InFlight(x.s.swarm.conns, sw.nextId, r) == InFlight(sw.conns, sw.nextId, r) + QueueHolds([ev], r);
      assert QueueHolds([ev], r) == EventHolds(ev, r);
    }
  }

  lemma DropInv(t: Torrent, x: State, p: nat, y: State)
    requires Inv(t, x) && DropStep(x, p, y)
    ensures Inv(t, y)
  {
    assert ConnOk(t, x.s, DeliveredTo(x.h, p), p, x.s.swarm.conns[p]);
    DropGlobal(t, x, p, y);
    AppendOk(x.s.queue, Drop(x.s.swarm, p).1, x.s.swarm.nextId, x.s.bans.hosts);
    forall j | j in y.s.swarm.conns ensures ConnOk(t, y.s, DeliveredTo(y.h, j), j, y.s.swarm.conns[j]) {
      ConnCarries(t, x.s, y.s, DeliveredTo(x.h, j), j, x.s.swarm.conns[j]);
    }
  }

  lemma BanConns(t: Torrent, x: State, host: Host, order: seq<nat>)
    requires Inv(t, x) && Lists(order, x.s.swarm) && host !in x.s.swarm.banned
    ensures var y := x.(s := BanHost(x.s, host, order));
            |y.s.disk| == t.totalLength && Conns(t, y)
  {
    var sw0 := x.s.swarm.(banned := x.s.swarm.banned + {host});
    var (sw, evs) := DropHost(sw0, host, order);
    DropHostDrops(sw0, host, order, x.h.leaked);
    var y := x.(s := BanHost(x.s, host, order));
    ReleaseEventsHave(x.s.pieces, evs);
    forall j | j in y.s.swarm.conns ensures ConnOk(t, y.s, DeliveredTo(y.h, j), j, y.s.swarm.conns[j]) {
      var c := x.s.swarm.conns[j];
      assert ConnOk(t, x.s, DeliveredTo(x.h, j), j, c);
      assert c.host != host;
    }
  }

  lemma {:induction false} ReleaseEventsHave(ps: P.Pieces, evs: seq<Event>)
    ensures ReleaseEvents(ps, evs).have == ps.have
    decreases |evs|
  {
    if evs == [] {
    } else {
      ReleaseEventsHave(if evs[0].Dropped? || evs[0].Choked? then P.Release(ps, evs[0].released) else ps, evs[1..]);
    }
  }

  lemma BanGlobal(t: Torrent, x: State, host: Host, order: seq<nat>)
    requires Inv(t, x) && host !in x.s.swarm.banned
    ensures Global(t, x.(s := BanHost(x.s, host, order)))
  {
    var sw0 := x.s.swarm.(banned := x.s.swarm.banned + {host});
    var (sw, evs) := DropHost(sw0, host, order);
    DropHostDrops(sw0, host, order, x.h.leaked);
    forall r ensures InFlight(sw.conns, sw.nextId, r) + QueueHolds(evs, r) + QueueHolds(x.s.queue, r) ==
                     (if P.IsRequested(t, x.s.pieces, r) then 1 else 0)
    {
      assert InFlight(sw0.conns, sw0.nextId, r) == InFlight(sw.conns, sw.nextId, r) + QueueHolds(evs, r);
    }
    ConservedReleaseAll(t, x.s.pieces, sw.conns, sw.nextId, evs, x.s.queue);
    ReleaseAttributed(t, x.s.pieces, ReleaseEvents(x.s.pieces, evs), x.s.bans, x.h.arrivals);
  }

  // A ban drops every connection of the host, gives back what they were asked
  // for, and leaves everything else alone.
  lemma BanInv(t: Torrent, x: State, host: Host, order: seq<nat>)
    requires Inv(t, x) && Lists(order, x.s.swarm)
    ensures var y := x.(s := BanHost(x.s, host, order));
            && Inv(t, y)
            && y.s.swarm.banned == x.s.swarm.banned + {host}
            && forall p :: p in y.s.swarm.conns ==> p in x.s.swarm.conns
  {
    if host !in x.s.swarm.banned {
      BanConns(t, x, host, order);
      BanGlobal(t, x, host, order);
      BanKeepsList(x.s, host, order, x.h.leaked);
    }
  }

  lemma BanKeepsList(s: Session, host: Host, order: seq<nat>, leaked: seq<nat>)
    requires FrequencyOk(s.swarm.conns, s.swarm.frequency, leaked)
    requires host !in s.swarm.banned && forall p :: p in s.swarm.conns ==> p < s.swarm.nextId
    ensures forall p :: p in BanHost(s, host, order).swarm.conns ==> p in s.swarm.conns
    ensures BanHost(s, host, order).swarm.banned == s.swarm.banned + {host}
  {
    DropHostDrops(s.swarm.(banned := s.swarm.banned + {host}), host, order, leaked);
  }

  lemma {:induction false} BansInv(t: Torrent, x: State, hosts: seq<Host>, order: Host -> seq<nat>)
    requires Inv(t, x) && forall h :: Lists(order(h), x.s.swarm)
    ensures Inv(t, x.(s := BanHosts(x.s, hosts, order)))
    decreases |hosts|
  {
    if hosts == [] {
    } else {
      BanInv(t, x, hosts[0], order(hosts[0]));
      BansInv(t, x.(s := BanHost(x.s, hosts[0], order(hosts[0]))), hosts[1..], order);
    }
  }

  lemma {:induction false} DropHostKeepsBanned(sw: Swarm, host: Host, order: seq<nat>)
    ensures DropHost(sw, host, order).0.banned == sw.banned
    decreases |order|
  {
    if order == [] {
    } else {
      if order[0] in sw.conns && sw.conns[order[0]].host == host {
        DropHostKeepsBanned(Drop(sw, order[0]).0, host, order[1..]);
      } else {
        DropHostKeepsBanned(sw, host, order[1..]);
      }
    }
  }
}
