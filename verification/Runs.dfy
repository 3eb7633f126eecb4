// Every step keeps the invariant, so it holds in every state of every run.
module Runs {
  import opened Types
  import opened Torrents
  import opened Wire
  import opened Swarms
  import opened Engine
  import opened Invariants
  import opened Delivery
  import opened Membership
  import opened Dispatching
  import opened Arrivals
  import Outboxes
  import P = Pieces
  import B = Bans

  // ----- timeouts -----

  lemma RequestsSplit(pending: seq<PendingRequest>, k: nat)
    requires k <= |pending|
    ensures multiset(RequestsOf(pending)) == multiset(RequestsOf(pending[..k])) + multiset(RequestsOf(pending[k..]))
  {
    assert RequestsOf(pending) == RequestsOf(pending[..k]) + RequestsOf(pending[k..]);
  }

  // x with p's connection replaced and some requests given back
  function Returned(x: State, p: nat, c: Conn, released: seq<BlockRequest>): State
  {
    x.(s := x.s.(swarm := Put(x.s.swarm, p, c), pieces := P.Release(x.s.pieces, released)))
  }

  lemma ReturnedConserved(t: Torrent, ps: P.Pieces, conns: map<nat, Conn>, n: nat, q: seq<Event>, p: nat, c: Conn,
                          released: seq<BlockRequest>)
    requires t.Valid() && P.Wf(t, ps) && Conserved(t, ps, conns, n, q) && p in conns && p < n
    requires multiset(RequestsOf(conns[p].pending)) == multiset(released) + multiset(RequestsOf(c.pending))
    ensures P.Wf(t, P.Release(ps, released)) && Conserved(t, P.Release(ps, released), conns[p := c], n, q)
  {
    forall r ensures InFlight(conns[p := c], n, r) + multiset(released)[r] + QueueHolds(q, r) ==
                     (if P.IsRequested(t, ps, r) then 1 else 0)
    {
      InFlightPut(conns, n, p, c, r);
      assert InFlight(conns, n, r) + QueueHolds(q, r) == (if P.IsRequested(t, ps, r) then 1 else 0);
    }
    ConservedRelease(t, ps, conns[p := c], n, released, q);
  }

  lemma ReturnedBooks(t: Torrent, x: State, p: nat, c: Conn, released: seq<BlockRequest>)
    requires Books(t, x) && p in x.s.swarm.conns && p < x.s.swarm.nextId && c.has == x.s.swarm.conns[p].has
    requires multiset(RequestsOf(x.s.swarm.conns[p].pending)) == multiset(released) + multiset(RequestsOf(c.pending))
    ensures Books(t, Returned(x, p, c, released))
  {
    ReturnedConserved(t, x.s.pieces, x.s.swarm.conns, x.s.swarm.nextId, x.s.queue, p, c, released);
    FrequencyKept(x.s.swarm.conns, p, c, x.s.swarm.frequency, x.h.leaked);
    assert x.s.swarm.conns[p := c].Keys == x.s.swarm.conns.Keys;
  }

  lemma ReturnedHoldings(t: Torrent, x: State, p: nat, c: Conn, released: seq<BlockRequest>)
    requires Global(t, x) && Shaped(t, Returned(x, p, c, released).s)
    ensures Holdings(t, Returned(x, p, c, released))
  {
    ReleaseOnly(x.s.pieces, released);
    ReleaseAttributed(t, x.s.pieces, P.Release(x.s.pieces, released), x.s.bans, x.h.arrivals);
  }

  lemma ReturnedConns(t: Torrent, x: State, p: nat, c: Conn, released: seq<BlockRequest>)
    requires t.Valid() && |x.s.disk| == t.totalLength && Conns(t, x) && ConnOk(t, x.s, DeliveredTo(x.h, p), p, c)
    ensures Conns(t, Returned(x, p, c, released))
  {
    var y := Returned(x, p, c, released);
    forall j | j in y.s.swarm.conns ensures ConnOk(t, y.s, DeliveredTo(y.h, j), j, y.s.swarm.conns[j]) {
      ConnCarries(t, x.s, y.s, DeliveredTo(x.h, j), j, y.s.swarm.conns[j]);
    }
  }

  lemma ExpireInv(t: Torrent, x: State, p: nat, cutoff: int, y: State)
    requires Inv(t, x) && ExpireStep(x, p, cutoff, y)
    ensures Inv(t, y)
  {
    hide P.Release;
    var c := x.s.swarm.conns[p];
    var k := StaleCount(c.pending, cutoff);
    if k > 0 {
      var c', released := c.(pending := c.pending[k..], snubbed := true), RequestsOf(c.pending[..k]);
      assert ConnOk(t, x.s, DeliveredTo(x.h, p), p, c);
      RequestsSplit(c.pending, k);
      assert y == Returned(x, p, c', released);
      ReturnedBooks(t, x, p, c', released);
      ReturnedHoldings(t, x, p, c', released);
      ReturnedConns(t, x, p, c', released);
    }
  }

  lemma CompleteInv(t: Torrent, x: State, y: State)
    requires Inv(t, x) && CompleteStep(t, x, y)
    ensures Inv(t, y)
  {
    forall j | j in y.s.swarm.conns ensures ConnOk(t, y.s, DeliveredTo(y.h, j), j, y.s.swarm.conns[j]) {
      ConnCarries(t, x.s, y.s, DeliveredTo(x.h, j), j, x.s.swarm.conns[j]);
    }
  }

  // ----- scheduling -----

  lemma PickConserved(t: Torrent, ps: P.Pieces, ps': P.Pieces, conns: map<nat, Conn>, n: nat, q: seq<Event>, p: nat,
                      c: Conn, req: BlockRequest)
    requires t.Valid() && P.Wf(t, ps) && P.Wf(t, ps') && Conserved(t, ps, conns, n, q) && p in conns && p < n
    requires multiset(RequestsOf(c.pending)) == multiset(RequestsOf(conns[p].pending)) + multiset{req}
    requires !P.IsRequested(t, ps, req)
    requires forall r :: P.IsRequested(t, ps', r) <==> P.IsRequested(t, ps, r) || r == req
    ensures Conserved(t, ps', conns[p := c], n, q)
  {
    forall r ensures InFlight(conns[p := c], n, r) + QueueHolds(q, r) == (if P.IsRequested(t, ps', r) then 1 else 0) {
      InFlightPut(conns, n, p, c, r);
      assert InFlight(conns, n, r) + QueueHolds(q, r) == (if P.IsRequested(t, ps, r) then 1 else 0);
    }
  }

  // a pick adds no received block and no owner
  lemma PickOnly(t: Torrent, ps: P.Pieces, has: set<nat>, availability: seq<nat>, tag: nat, ps': P.Pieces,
                 req: BlockRequest)
    requires t.Valid() && P.Wf(t, ps) && |availability| == t.Count()
    requires P.PickStep(t, ps, has, availability, tag, ps', Some(req)) && Unowned(ps)
    ensures ps'.have == ps.have && ps'.haveCount == ps.haveCount && Unowned(ps') && ps.active.Keys <= ps'.active.Keys
    ensures forall i, b ::
              i in ps'.active && 0 <= b < |ps'.active[i].states| && ps'.active[i].states[b] == P.Received ==>
              && i in ps.active && b < |ps.active[i].states| && ps.active[i].states[b] == P.Received
              && ps'.active[i].data == ps.active[i].data
    ensures forall i, b :: Holds(ps, i, b) ==> Holds(ps', i, b)
  {
    hide P.Wf;
  }

  lemma PickHolds(t: Torrent, ps: P.Pieces, has: set<nat>, availability: seq<nat>, tag: nat, ps': P.Pieces,
                  req: BlockRequest,
                  bs: B.Bans, arrivals: map<(nat, nat), Arrival>)
    requires t.Valid() && P.Wf(t, ps) && P.Wf(t, ps') && |availability| == t.Count()
    requires P.PickStep(t, ps, has, availability, tag, ps', Some(req)) && Attributed(t, ps, bs, arrivals) && Unowned(ps)
    ensures Attributed(t, ps', bs, arrivals) && Unowned(ps')
    ensures ps'.have == ps.have && ps'.haveCount == ps.haveCount
  {
    hide P.PickStep, SlotOk;
    PickOnly(t, ps, has, availability, tag, ps', req);
    forall i, b | i in ps'.active && 0 <= b < |ps'.active[i].states| && ps'.active[i].states[b] == P.Received
      ensures SlotOk(t, ps'.active[i].data, bs, arrivals, i, b)
    {
      assert SlotOk(t, ps.active[i].data, bs, arrivals, i, b);
    }
    forall i, b | (i, b) in arrivals ensures Holds(ps', i, b) {
      assert Holds(ps, i, b);
    }
  }

  lemma PendingAppend(pending: seq<PendingRequest>, req: BlockRequest, clock: int, now: int)
    requires PendingOk(pending, clock) && |pending| < PIPELINE_DEPTH && clock <= now
    ensures PendingOk(pending + [PendingRequest(req, now)], now)
    ensures multiset(RequestsOf(pending + [PendingRequest(req, now)])) == multiset(RequestsOf(pending)) + multiset{req}
  {
    assert RequestsOf(pending + [PendingRequest(req, now)]) == RequestsOf(pending) + [req];
  }

  // the connection after one more request
  function Asked(c: Conn, req: BlockRequest, now: int): Conn
  {
    Enqueued(c.(pending := c.pending + [PendingRequest(req, now)]), RequestMsg(req))
  }

  lemma AskedConn(t: Torrent, s: Session, d: seq<Msg>, p: nat, c: Conn, req: BlockRequest, now: int, s': Session)
    requires t.Valid() && |s.disk| == t.totalLength && ConnOk(t, s, d, p, c) && WantsWork(c) && s.clock <= now
    requires s.queue == []
    requires s'.disk == s.disk && s'.pieces.have == s.pieces.have && s'.bans.hosts == s.bans.hosts && s'.queue == []
    requires s'.swarm.banned == s.swarm.banned && s'.swarm.nextId == s.swarm.nextId && s'.clock == now
    ensures ConnOk(t, s', d, p, Asked(c, req, now))
  {
    PendingAppend(c.pending, req, s.clock, now);
    Outboxes.EnqueueWf(c.out, RequestMsg(req));
    ScanAppend(d + c.out.buffer, RequestMsg(req), t.Count());
    assert d + (c.out.buffer + [RequestMsg(req)]) == d + c.out.buffer + [RequestMsg(req)];
  }

  // x with p asked for req, which the pieces already reflect
  function Scheduled(x: State, p: nat, now: int, pieces: P.Pieces, req: BlockRequest): State
    requires p in x.s.swarm.conns
  {
    x.(s := x.s.(pieces := pieces, swarm := Put(x.s.swarm, p, Asked(x.s.swarm.conns[p], req, now)), clock := now))
  }

  lemma ScheduledBooks(t: Torrent, x: State, p: nat, now: int, pieces: P.Pieces, req: BlockRequest)
    requires Books(t, x) && p in x.s.swarm.conns && p < x.s.swarm.nextId
    requires P.PickStep(t, x.s.pieces, x.s.swarm.conns[p].has, x.s.swarm.frequency, p, pieces, Some(req))
    ensures Books(t, Scheduled(x, p, now, pieces, req))
  {
    var c := x.s.swarm.conns[p];
    var c' := Asked(c, req, now);
    assert RequestsOf(c'.pending) == RequestsOf(c.pending) + [req];
    P.PickRequests(t, x.s.pieces, c.has, x.s.swarm.frequency, p, pieces, req);
    PickConserved(t, x.s.pieces, pieces, x.s.swarm.conns, x.s.swarm.nextId, x.s.queue, p, c', req);
    FrequencyKept(x.s.swarm.conns, p, c', x.s.swarm.frequency, x.h.leaked);
    assert x.s.swarm.conns[p := c'].Keys == x.s.swarm.conns.Keys;
  }

  lemma ScheduledHoldings(t: Torrent, x: State, p: nat, now: int, pieces: P.Pieces, req: BlockRequest)
    requires Global(t, x) && p in x.s.swarm.conns && Shaped(t, Scheduled(x, p, now, pieces, req).s)
    requires P.PickStep(t, x.s.pieces, x.s.swarm.conns[p].has, x.s.swarm.frequency, p, pieces, Some(req))
    ensures Holdings(t, Scheduled(x, p, now, pieces, req))
  {
    PickHolds(t, x.s.pieces, x.s.swarm.conns[p].has, x.s.swarm.frequency, p, pieces, req, x.s.bans, x.h.arrivals);
  }

  lemma ScheduledConns(t: Torrent, x: State, p: nat, now: int, pieces: P.Pieces, req: BlockRequest)
    requires t.Valid() && |x.s.disk| == t.totalLength && Conns(t, x) && p in x.s.swarm.conns
    requires pieces.have == x.s.pieces.have
    requires WantsWork(x.s.swarm.conns[p]) && x.s.clock <= now && x.s.queue == []
    ensures Conns(t, Scheduled(x, p, now, pieces, req))
  {
    var y := Scheduled(x, p, now, pieces, req);
    forall j | j in y.s.swarm.conns ensures ConnOk(t, y.s, DeliveredTo(y.h, j), j, y.s.swarm.conns[j]) {
      if j == p {
        AskedConn(t, x.s, DeliveredTo(x.h, p), p, x.s.swarm.conns[p], req, now, y.s);
      } else {
        ConnCarries(t, x.s, y.s, DeliveredTo(x.h, j), j, x.s.swarm.conns[j]);
      }
    }
  }

  lemma ScheduleInv(t: Torrent, x: State, p: nat, now: int, pieces: P.Pieces, req: BlockRequest, y: State)
    requires Inv(t, x) && ScheduleStep(t, x, p, now, pieces, req, y)
    ensures Inv(t, y)
  {
    assert y == Scheduled(x, p, now, pieces, req);
    assert ConnOk(t, x.s, DeliveredTo(x.h, p), p, x.s.swarm.conns[p]);
    ScheduledBooks(t, x, p, now, pieces, req);
    ScheduledHoldings(t, x, p, now, pieces, req);
    P.PickRequests(t, x.s.pieces, x.s.swarm.conns[p].has, x.s.swarm.frequency, p, pieces, req);
    ScheduledConns(t, x, p, now, pieces, req);
  }

  // ----- every step, every run -----

  lemma DispatchInv(t: Torrent, x: State, order: Host -> seq<nat>, y: State)
    requires Inv(t, x) && DispatchStep(t, x, order, y)
    ensures Inv(t, y)
  {
    match x.s.queue[0]
    case Joined(p) => JoinedInv(t, x, p);
    case PieceArrived(p, block) => ArrivedInv(t, x, order, y);
    case BlockAsked(p, req) => AskedInv(t, x, p, req);
    case Choked(_, _) => ReleasedInv(t, x);
    case Dropped(_, _) => ReleasedInv(t, x);
    case Unchoked(_) => PopInv(t, x);
  }

  lemma NextInv(t: Torrent, x: State, a: Action, y: State)
    requires Inv(t, x) && Next(t, x, a, y)
    ensures Inv(t, y)
  {
    match a
    case BeginHandshake(host) => HandshakingInv(t, x, x.s.swarm.handshaking + [host]);
    case AbandonHandshake(k) => HandshakingInv(t, x, Without(x.s.swarm.handshaking, k));
    case FinishHandshake(k, reply) => FinishInv(t, x, k, reply, y);
    case Deliver(p, msg) => DeliverInv(t, x, p, msg, y);
    case Transmit(p, w) => TransmitInv(t, x, p, w, y);
    case KeepAliveTo(p) => KeepAliveInv(t, x, p, y);
    case DropConn(p) => DropInv(t, x, p, y);
    case DispatchNext(order) => DispatchInv(t, x, order, y);
    case ExpireAt(p, cutoff) => ExpireInv(t, x, p, cutoff, y);
    case NoticeComplete => CompleteInv(t, x, y);
    case Schedule(p, now, pieces, req) => ScheduleInv(t, x, p, now, pieces, req, y);
  }

  // a client run: states xs, with action acts[k] leading from xs[k] to xs[k + 1]
  ghost predicate IsRun(t: Torrent, xs: seq<State>, acts: seq<Action>)
  {
    && |xs| == |acts| + 1
    && Init(t, xs[0])
    && forall k :: 0 <= k < |acts| ==> Moves(t, xs[k], acts[k], xs[k + 1])
  }

  ghost predicate Moves(t: Torrent, x: State, a: Action, y: State)
  {
    Shaped(t, x.s) && Next(t, x, a, y)
  }

  lemma {:induction false} RunInv(t: Torrent, xs: seq<State>, acts: seq<Action>, k: nat)
    requires IsRun(t, xs, acts) && k < |xs|
    ensures Inv(t, xs[k])
  {
    hide Inv, Next, Init;
    if k == 0 {
      InitInv(t, xs[0]);
    } else {
      RunInv(t, xs, acts, k - 1);
      assert Moves(t, xs[k - 1], acts[k - 1], xs[k - 1 + 1]);
      NextInv(t, xs[k - 1], acts[k - 1], xs[k]);
    }
  }

  // ----- parts of runs -----

  ghost predicate IsPath(t: Torrent, xs: seq<State>, acts: seq<Action>, kind: Action -> bool)
  {
    |xs| == |acts| + 1 && forall k :: 0 <= k < |acts| ==> Moves(t, xs[k], acts[k], xs[k + 1]) && kind(acts[k])
  }

  // steps of this kind alone lead from x to y
  ghost predicate Leads(t: Torrent, x: State, kind: Action -> bool, y: State)
  {
    exists xs, acts :: IsPath(t, xs, acts, kind) && xs[0] == x && xs[|acts|] == y
  }

  lemma LeadsNowhere(t: Torrent, x: State, kind: Action -> bool)
    ensures Leads(t, x, kind, x)
  {
    assert IsPath(t, [x], [], kind);
  }

  lemma LeadsStep(t: Torrent, x: State, kind: Action -> bool, y: State, a: Action, z: State)
    requires Leads(t, x, kind, y) && Moves(t, y, a, z) && kind(a)
    ensures Leads(t, x, kind, z)
  {
    hide Moves;
    var xs, acts :| IsPath(t, xs, acts, kind) && xs[0] == x && xs[|acts|] == y;
    var xs', acts' := xs + [z], acts + [a];
    forall k | 0 <= k < |acts'| ensures Moves(t, xs'[k], acts'[k], xs'[k + 1]) && kind(acts'[k]) {
      if k < |acts| { assert Moves(t, xs[k], acts[k], xs[k + 1]); }
    }
    assert IsPath(t, xs', acts', kind);
  }

  lemma {:induction false} LeadsAlong(t: Torrent, x: State, kind: Action -> bool, xs: seq<State>, acts: seq<Action>,
                                      k: nat)
    requires IsPath(t, xs, acts, kind) && k < |xs| && Leads(t, x, kind, xs[0])
    ensures Leads(t, x, kind, xs[k])
  {
    hide Moves, Leads;
    if k == 0 {
    } else {
      LeadsAlong(t, x, kind, xs, acts, k - 1);
      assert Moves(t, xs[k - 1], acts[k - 1], xs[k - 1 + 1]);
      LeadsStep(t, x, kind, xs[k - 1], acts[k - 1], xs[k]);
    }
  }

  lemma LeadsOn(t: Torrent, x: State, kind: Action -> bool, y: State, z: State)
    requires Leads(t, x, kind, y) && Leads(t, y, kind, z)
    ensures Leads(t, x, kind, z)
  {
    hide Moves;
    var xs, acts :| IsPath(t, xs, acts, kind) && xs[0] == y && xs[|acts|] == z;
    LeadsAlong(t, x, kind, xs, acts, |acts|);
  }

  function Expiring(cutoff: int): Action -> bool
  {
    (a: Action) => a.ExpireAt? && a.cutoff == cutoff
  }

  const SCHEDULING: Action -> bool := (a: Action) => a.Schedule?
}
