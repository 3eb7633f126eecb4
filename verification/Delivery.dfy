// Steps that read or write one connection keep the invariant: incoming
// messages, sending, keep-alives.
module Delivery {
  import opened Types
  import opened Torrents
  import opened Wire
  import opened Bitfields
  import opened Swarms
  import opened Engine
  import opened Invariants
  import Outboxes
  import P = Pieces

  // y is x with connection p replaced, and possibly other counts, events and
  // deliveries to p
  ghost predicate Replaces(x: State, p: nat, c: Conn, y: State)
  {
    && p in x.s.swarm.conns
    && y.s == x.s.(swarm := y.s.swarm, queue := y.s.queue)
    && y.s.swarm == x.s.swarm.(conns := x.s.swarm.conns[p := c], frequency := y.s.swarm.frequency)
    && y.h == x.h.(delivered := y.h.delivered, leaked := y.h.leaked)
    && (forall j :: j != p ==> DeliveredTo(y.h, j) == DeliveredTo(x.h, j))
    && (forall j :: j in y.h.delivered ==> j in x.h.delivered || j == p)
    && (forall j :: Joined(j) in y.s.queue <==> Joined(j) in x.s.queue)
  }

  // a connection does not notice changes elsewhere
  lemma ConnCarries(t: Torrent, s: Session, s': Session, d: seq<Msg>, p: nat, c: Conn)
    requires t.Valid() && |s.disk| == t.totalLength && ConnOk(t, s, d, p, c)
    requires s'.disk == s.disk && s'.pieces.have == s.pieces.have && s'.bans.hosts == s.bans.hosts
    requires s'.swarm.banned == s.swarm.banned && s'.swarm.nextId >= s.swarm.nextId && s'.clock >= s.clock
    requires Joined(p) in s'.queue <==> Joined(p) in s.queue
    ensures ConnOk(t, s', d, p, c)
  {
  }

  lemma ReplaceConns(t: Torrent, x: State, p: nat, c: Conn, y: State)
    requires t.Valid() && |x.s.disk| == t.totalLength && Conns(t, x) && Replaces(x, p, c, y)
    requires ConnOk(t, y.s, DeliveredTo(y.h, p), p, c)
    ensures Conns(t, y)
  {
    forall j | j in y.s.swarm.conns ensures ConnOk(t, y.s, DeliveredTo(y.h, j), j, y.s.swarm.conns[j]) {
      if j != p {
        ConnCarries(t, x.s, y.s, DeliveredTo(x.h, j), j, x.s.swarm.conns[j]);
      }
    }
  }

  lemma ReplaceGlobal(t: Torrent, x: State, p: nat, c: Conn, y: State)
    requires Global(t, x) && Replaces(x, p, c, y)
    requires |y.s.swarm.frequency| == |x.s.swarm.frequency|
    requires FrequencyOk(y.s.swarm.conns, y.s.swarm.frequency, y.h.leaked)
    requires Conserved(t, y.s.pieces, y.s.swarm.conns, y.s.swarm.nextId, y.s.queue)
    requires QueueOk(y.s.queue, y.s.swarm.nextId, y.s.bans.hosts)
    requires p < x.s.swarm.nextId
    ensures Global(t, y)
  {
    assert y.s.swarm.conns.Keys == x.s.swarm.conns.Keys;
  }

  // ----- pieces of the argument -----

  lemma ConservedPut(t: Torrent, ps: P.Pieces, conns: map<nat, Conn>, n: nat, q: seq<Event>, p: nat, c: Conn,
                     q': seq<Event>)
    requires t.Valid() && P.Wf(t, ps) && Conserved(t, ps, conns, n, q)
    requires p < n && p in conns
    requires forall r :: Asks(c, r) + QueueHolds(q', r) == Asks(conns[p], r) + QueueHolds(q, r)
    ensures Conserved(t, ps, conns[p := c], n, q')
  {
    forall r ensures InFlight(conns[p := c], n, r) + QueueHolds(q', r) == (if P.IsRequested(t, ps, r) then 1 else 0) {
      InFlightPut(conns, n, p, c, r);
    }
  }

  lemma AppendHolds(q: seq<Event>, ev: Event)
    ensures forall r :: QueueHolds(q + [ev], r) == QueueHolds(q, r) + EventHolds(ev, r)
  {
    forall r ensures QueueHolds(q + [ev], r) == QueueHolds(q, r) + EventHolds(ev, r) {
      QueueAppend(q, [ev], r);
    }
  }

  lemma HoldersPut(conns: map<nat, Conn>, p: nat, c: Conn, i: nat)
    requires p in conns
    ensures Holders(conns[p := c], i) + (if i in conns[p].has then 1 else 0) ==
            Holders(conns, i) + (if i in c.has then 1 else 0)
  {
    var rest := HolderSet(conns, i) - {p};
    assert HolderSet(conns, i) == if i in conns[p].has then rest + {p} else rest;
    assert HolderSet(conns[p := c], i) == if i in c.has then rest + {p} else rest;
  }

  // the counts go up by one for every piece in 'has'; of those the ones already
  // announced are counted twice from now on
  lemma FrequencyPut(conns: map<nat, Conn>, frequency: seq<nat>, leaked: seq<nat>, p: nat, c: Conn,
                     has: set<nat>, frequency': seq<nat>, leaked': seq<nat>)
    requires p in conns && FrequencyOk(conns, frequency, leaked)
    requires |frequency'| == |frequency| && |leaked'| == |leaked|
    requires forall i :: 0 <= i < |frequency| ==>
               frequency'[i] == (if i in has then (frequency[i] + 1) % 0x1_0000 else frequency[i])
    requires forall i :: 0 <= i < |frequency| ==>
               (if i in has then 1 else 0) + (if i in conns[p].has then 1 else 0) + leaked[i] ==
               (if i in c.has then 1 else 0) + leaked'[i]
    ensures FrequencyOk(conns[p := c], frequency', leaked')
  {
    forall i | 0 <= i < |frequency| ensures CountOk(frequency'[i], Holders(conns[p := c], i), leaked'[i]) {
      assert CountOk(frequency[i], Holders(conns, i), leaked[i]);
      HoldersPut(conns, p, c, i);
    }
  }

  lemma FrequencySame(conns: map<nat, Conn>, conns': map<nat, Conn>, frequency: seq<nat>, leaked: seq<nat>)
    requires FrequencyOk(conns, frequency, leaked)
    requires forall p :: p in conns' && conns'[p].has != {} ==> p in conns && conns[p].has == conns'[p].has
    requires forall p :: p in conns && conns[p].has != {} ==> p in conns' && conns'[p].has == conns[p].has
    ensures FrequencyOk(conns', frequency, leaked)
  {
    forall i | 0 <= i < |frequency| ensures Holders(conns', i) == Holders(conns, i) {
      assert HolderSet(conns', i) == HolderSet(conns, i);
    }
  }

  lemma FrequencyKept(conns: map<nat, Conn>, p: nat, c: Conn, frequency: seq<nat>, leaked: seq<nat>)
    requires p in conns && c.has == conns[p].has && FrequencyOk(conns, frequency, leaked)
    ensures FrequencyOk(conns[p := c], frequency, leaked)
  {
    FrequencySame(conns, conns[p := c], frequency, leaked);
  }

  // x with p's connection replaced and the queue replaced
  function With(x: State, p: nat, c: Conn, q: seq<Event>): State
  {
    x.(s := x.s.(swarm := Put(x.s.swarm, p, c), queue := q))
  }

  // A step that keeps what p announced and moves p's requests at most into the queue.
  lemma WithInv(t: Torrent, x: State, p: nat, c: Conn, q: seq<Event>)
    requires Inv(t, x) && p in x.s.swarm.conns && c.has == x.s.swarm.conns[p].has
    requires forall r :: Asks(c, r) + QueueHolds(q, r) == Asks(x.s.swarm.conns[p], r) + QueueHolds(x.s.queue, r)
    requires QueueOk(q, x.s.swarm.nextId, x.s.bans.hosts)
    requires forall j :: Joined(j) in q <==> Joined(j) in x.s.queue
    requires ConnOk(t, x.s, DeliveredTo(x.h, p), p, c)
    ensures Inv(t, With(x, p, c, q))
  {
    var y := With(x, p, c, q);
    ConservedPut(t, x.s.pieces, x.s.swarm.conns, x.s.swarm.nextId, x.s.queue, p, c, q);
    FrequencyKept(x.s.swarm.conns, p, c, x.s.swarm.frequency, x.h.leaked);
    ReplaceGlobal(t, x, p, c, y);
    ReplaceConns(t, x, p, c, y);
  }

  // x with another queue that holds the same requests
  function Queued(x: State, q: seq<Event>): State
  {
    x.(s := x.s.(queue := q))
  }

  lemma QueuedInv(t: Torrent, x: State, q: seq<Event>)
    requires Inv(t, x)
    requires forall r :: QueueHolds(q, r) == QueueHolds(x.s.queue, r)
    requires QueueOk(q, x.s.swarm.nextId, x.s.bans.hosts)
    requires forall j :: j in x.s.swarm.conns ==> (Joined(j) in q <==> Joined(j) in x.s.queue)
    ensures Inv(t, Queued(x, q))
  {
    var y := Queued(x, q);
    forall j | j in y.s.swarm.conns ensures ConnOk(t, y.s, DeliveredTo(y.h, j), j, y.s.swarm.conns[j]) {
      ConnCarries(t, x.s, y.s, DeliveredTo(x.h, j), j, x.s.swarm.conns[j]);
    }
  }

  // x with p's announced pieces and the counts replaced
  function Counted(x: State, p: nat, c: Conn, frequency: seq<nat>, leaked: seq<nat>): State
  {
    State(x.s.(swarm := Put(x.s.swarm, p, c).(frequency := frequency)), x.h.(leaked := leaked))
  }

  lemma CountedInv(t: Torrent, x: State, p: nat, c: Conn, frequency: seq<nat>, leaked: seq<nat>)
    requires Inv(t, x) && p in x.s.swarm.conns
    requires var o := x.s.swarm.conns[p]; c.host == o.host && c.pending == o.pending && c.out == o.out
    requires |frequency| == |x.s.swarm.frequency|
    requires FrequencyOk(x.s.swarm.conns[p := c], frequency, leaked)
    ensures Inv(t, Counted(x, p, c, frequency, leaked))
  {
    var y := Counted(x, p, c, frequency, leaked);
    assert ConnOk(t, x.s, DeliveredTo(x.h, p), p, x.s.swarm.conns[p]);
    ConservedPut(t, x.s.pieces, x.s.swarm.conns, x.s.swarm.nextId, x.s.queue, p, c, x.s.queue);
    ReplaceGlobal(t, x, p, c, y);
    ReplaceConns(t, x, p, c, y);
  }

  // adding an event that is not a newcomer
  lemma AppendOk(q: seq<Event>, ev: Event, nextId: nat, hosts: map<nat, Host>)
    requires QueueOk(q, nextId, hosts) && EventOk(ev, nextId, hosts) && !ev.Joined?
    ensures QueueOk(q + [ev], nextId, hosts)
    ensures forall j :: Joined(j) in q + [ev] <==> Joined(j) in q
  {
  }

  lemma WithoutOk(q: seq<Event>, k: nat, nextId: nat, hosts: map<nat, Host>)
    requires QueueOk(q, nextId, hosts) && k < |q| && !q[k].Joined?
    ensures QueueOk(Without(q, k), nextId, hosts)
    ensures forall j :: Joined(j) in Without(q, k) <==> Joined(j) in q
  {
    var w := Without(q, k);
    assert forall j :: 0 <= j < |w| ==> w[j] == if j < k then q[j] else q[j + 1];
    forall j | Joined(j) in q ensures Joined(j) in w {
      var m :| 0 <= m < |q| && q[m] == Joined(j);
      assert w[if m < k then m else m - 1] == Joined(j);
    }
  }

  // ----- incoming messages -----

  lemma ChokeInv(t: Torrent, x: State, p: nat)
    requires Inv(t, x) && p in x.s.swarm.conns
    ensures var c := x.s.swarm.conns[p];
            Inv(t, With(x, p, c.(peerChoking := true, pending := []), x.s.queue + [Choked(p, RequestsOf(c.pending))]))
  {
    var c := x.s.swarm.conns[p];
    var ev := Choked(p, RequestsOf(c.pending));
    var c' := c.(peerChoking := true, pending := []);
    AppendHolds(x.s.queue, ev);
    AppendOk(x.s.queue, ev, x.s.swarm.nextId, x.s.bans.hosts);
    assert ConnOk(t, x.s, DeliveredTo(x.h, p), p, c);
    WithInv(t, x, p, c', x.s.queue + [ev]);
  }

  // flags other than the pieces and requests do not matter
  lemma FlagInv(t: Torrent, x: State, p: nat, c: Conn)
    requires Inv(t, x) && p in x.s.swarm.conns
    requires var o := x.s.swarm.conns[p];
             c.host == o.host && c.pending == o.pending && c.has == o.has && c.out == o.out
    ensures Inv(t, With(x, p, c, x.s.queue))
  {
    assert ConnOk(t, x.s, DeliveredTo(x.h, p), p, x.s.swarm.conns[p]);
    WithInv(t, x, p, c, x.s.queue);
  }

  lemma UnchokeInv(t: Torrent, x: State, p: nat)
    requires Inv(t, x) && p in x.s.swarm.conns
    ensures Inv(t, With(x, p, x.s.swarm.conns[p].(peerChoking := false), x.s.queue + [Unchoked(p)]))
  {
    var c, ev := x.s.swarm.conns[p], Unchoked(p);
    assert ConnOk(t, x.s, DeliveredTo(x.h, p), p, c);
    AppendHolds(x.s.queue, ev);
    AppendOk(x.s.queue, ev, x.s.swarm.nextId, x.s.bans.hosts);
    WithInv(t, x, p, c.(peerChoking := false), x.s.queue + [ev]);
  }

  ghost predicate PlainEvent(ev: Event)
  {
    ev.BlockAsked? && ev.req.length <= BLOCK_SIZE && ev.req.offset < TWO_32
  }

  lemma HaveInv(t: Torrent, x: State, p: nat, i: nat)
    requires Inv(t, x) && p in x.s.swarm.conns && i !in x.s.swarm.conns[p].has
    ensures var c := x.s.swarm.conns[p];
            Inv(t, Counted(x, p, c.(has := c.has + {i}), Bumped(x.s.swarm.frequency, {i}, 1), x.h.leaked))
  {
    var c, f := x.s.swarm.conns[p], x.s.swarm.frequency;
    var c' := c.(has := c.has + {i});
    assert ConnOk(t, x.s, DeliveredTo(x.h, p), p, c);
    FrequencyPut(x.s.swarm.conns, f, x.h.leaked, p, c', {i}, Bumped(f, {i}, 1), x.h.leaked);
    CountedInv(t, x, p, c', Bumped(f, {i}, 1), x.h.leaked);
  }

  lemma FrequencyBitfield(conns: map<nat, Conn>, f: seq<nat>, leaked: seq<nat>, p: nat, c: Conn, leaked': seq<nat>)
    requires p in conns && FrequencyOk(conns, f, leaked) && |leaked'| == |leaked|
    requires forall i :: 0 <= i < |leaked| ==> leaked'[i] == leaked[i] + (if i in conns[p].has then 1 else 0)
    ensures FrequencyOk(conns[p := c], Bumped(f, c.has, 1), leaked')
  {
    FrequencyPut(conns, f, leaked, p, c, c.has, Bumped(f, c.has, 1), leaked');
  }

  // 'has' is the payload if it was acceptable
  lemma BitfieldInv(t: Torrent, x: State, p: nat, has: set<nat>, leaked: seq<nat>)
    requires Inv(t, x) && p in x.s.swarm.conns && |leaked| == |x.h.leaked|
    requires forall i :: 0 <= i < |leaked| ==>
               leaked[i] == x.h.leaked[i] + (if i in x.s.swarm.conns[p].has then 1 else 0)
    ensures var c := x.s.swarm.conns[p];
            Inv(t, Counted(x, p, c.(gotBitfield := true, has := has), Bumped(x.s.swarm.frequency, has, 1), leaked))
  {
    var c, f := x.s.swarm.conns[p], x.s.swarm.frequency;
    var c' := c.(gotBitfield := true, has := has);
    assert ConnOk(t, x.s, DeliveredTo(x.h, p), p, c);
    FrequencyBitfield(x.s.swarm.conns, f, x.h.leaked, p, c', leaked);
    CountedInv(t, x, p, c', Bumped(f, has, 1), leaked);
  }

  lemma RequestsWithout(pending: seq<PendingRequest>, k: nat)
    requires k < |pending|
    ensures multiset(RequestsOf(pending)) == multiset(RequestsOf(Without(pending, k))) + multiset{pending[k].req}
  {
    var a, w := RequestsOf(pending), RequestsOf(Without(pending, k));
    assert a == a[..k] + [a[k]] + a[k + 1..];
    assert w == a[..k] + a[k + 1..];
  }

  lemma PendingWithout(pending: seq<PendingRequest>, k: nat, clock: int)
    requires k < |pending| && PendingOk(pending, clock)
    ensures PendingOk(Without(pending, k), clock)
  {
    var w := Without(pending, k);
    assert forall j :: 0 <= j < |w| ==> w[j] == if j < k then pending[j] else pending[j + 1];
  }

  lemma PieceConn(t: Torrent, s: Session, d: seq<Msg>, p: nat, c: Conn, k: nat)
    requires t.Valid() && |s.disk| == t.totalLength && ConnOk(t, s, d, p, c) && k < |c.pending|
    ensures ConnOk(t, s, d, p, c.(pending := Without(c.pending, k), snubbed := false))
    ensures p in s.bans.hosts
  {
    PendingWithout(c.pending, k, s.clock);
  }

  // An arriving block takes its request from the pending list into the queue.
  lemma PieceInv(t: Torrent, x: State, p: nat, block: Block, k: nat)
    requires Inv(t, x) && p in x.s.swarm.conns
    requires k < |x.s.swarm.conns[p].pending| && x.s.swarm.conns[p].pending[k].req == P.RequestOf(block)
    ensures var c := x.s.swarm.conns[p];
            Inv(t, With(x, p, c.(pending := Without(c.pending, k), snubbed := false),
                        x.s.queue + [PieceArrived(p, block)]))
  {
    var c, ev := x.s.swarm.conns[p], PieceArrived(p, block);
    assert ConnOk(t, x.s, DeliveredTo(x.h, p), p, c);
    PieceConn(t, x.s, DeliveredTo(x.h, p), p, c, k);
    RequestsWithout(c.pending, k);
    AppendHolds(x.s.queue, ev);
    AppendOk(x.s.queue, ev, x.s.swarm.nextId, x.s.bans.hosts);
    WithInv(t, x, p, c.(pending := Without(c.pending, k), snubbed := false), x.s.queue + [ev]);
  }

  lemma LogWithout(delivered: seq<Msg>, buffer: seq<Msg>, k: nat)
    requires k < |buffer|
    ensures delivered + Without(buffer, k) == Without(delivered + buffer, |delivered| + k)
    ensures forall m :: m in delivered + Without(buffer, k) ==> m in delivered + buffer
  {
  }

  // a request that was not served yet is forgotten
  lemma ForgetInv(t: Torrent, x: State, k: nat)
    requires Inv(t, x) && k < |x.s.queue| && x.s.queue[k].BlockAsked?
    ensures Inv(t, Queued(x, Without(x.s.queue, k)))
  {
    forall a ensures QueueHolds(Without(x.s.queue, k), a) == QueueHolds(x.s.queue, a) {
      QueueWithout(x.s.queue, k, a);
    }
    WithoutOk(x.s.queue, k, x.s.swarm.nextId, x.s.bans.hosts);
    QueuedInv(t, x, Without(x.s.queue, k));
  }

  lemma AskInv(t: Torrent, x: State, ev: Event)
    requires Inv(t, x) && PlainEvent(ev)
    ensures Inv(t, Queued(x, x.s.queue + [ev]))
  {
    AppendHolds(x.s.queue, ev);
    AppendOk(x.s.queue, ev, x.s.swarm.nextId, x.s.bans.hosts);
    QueuedInv(t, x, x.s.queue + [ev]);
  }

  lemma SpokenWithout(t: Torrent, have: set<nat>, disk: Bytes, joining: bool, d: seq<Msg>, buffer: seq<Msg>, k: nat)
    requires t.Valid() && |disk| == t.totalLength && k < |buffer| && buffer[k].PieceMsg?
    requires Spoken(t, have, disk, joining, d + buffer)
    ensures Spoken(t, have, disk, joining, d + Without(buffer, k))
  {
    LogWithout(d, buffer, k);
    assert (d + buffer)[|d| + k] == buffer[k];
    ScanWithout(d + buffer, |d| + k, t.Count());
  }

  lemma CancelConn(t: Torrent, s: Session, d: seq<Msg>, p: nat, c: Conn, r: BlockRequest)
    requires t.Valid() && |s.disk| == t.totalLength && ConnOk(t, s, d, p, c)
    ensures ConnOk(t, s, d, p, c.(out := Outboxes.Cancel(c.out, r.piece, r.offset, r.length)))
  {
    Outboxes.CancelWf(c.out, r.piece, r.offset, r.length);
    var k := Outboxes.CancelAt(c.out, r.piece, r.offset, r.length);
    if k < |c.out.buffer| {
      SpokenWithout(t, s.pieces.have, s.disk, Joined(p) in s.queue, d, c.out.buffer, k);
    }
  }

  lemma CancelQueued(t: Torrent, x: State, p: nat, r: BlockRequest)
    requires Inv(t, x) && p in x.s.swarm.conns
    ensures var c := x.s.swarm.conns[p];
            Inv(t, With(x, p, c.(out := Outboxes.Cancel(c.out, r.piece, r.offset, r.length)), x.s.queue))
  {
    var c := x.s.swarm.conns[p];
    assert ConnOk(t, x.s, DeliveredTo(x.h, p), p, c);
    CancelConn(t, x.s, DeliveredTo(x.h, p), p, c, r);
    WithInv(t, x, p, c.(out := Outboxes.Cancel(c.out, r.piece, r.offset, r.length)), x.s.queue);
  }

  // the state after a message, with the handler's result
  function After(x: State, r: Handled): State
  {
    x.(s := x.s.(swarm := r.swarm, queue := r.queue))
  }

  lemma HandleHaveInv(t: Torrent, x: State, p: nat, payload: Bytes)
    requires Inv(t, x) && p in x.s.swarm.conns
    ensures Inv(t, After(x, HandleHave(x.s.swarm, x.s.queue, p, payload)))
  {
    if |payload| == 4 && ReadBe32(payload) < |x.s.swarm.frequency| && ReadBe32(payload) !in x.s.swarm.conns[p].has {
      HaveInv(t, x, p, ReadBe32(payload));
    }
  }

  lemma HandleBitfieldInv(t: Torrent, x: State, p: nat, msg: Bytes)
    requires Inv(t, x) && p in x.s.swarm.conns && msg != [] && msg[0] == MSG_BITFIELD
    ensures Inv(t, After(x,
                         HandleBitfield(x.s.swarm, x.s.queue, p, msg[1..])).(h := x.h.(leaked := LeakedBy(x, p, msg))))
  {
    var c := x.s.swarm.conns[p];
    if !c.gotBitfield {
      match FromBytes(msg[1..], |x.s.swarm.frequency|)
      case None => FlagInv(t, x, p, c.(gotBitfield := true));
      case Some(has) => BitfieldInv(t, x, p, has, LeakedBy(x, p, msg));
    }
  }

  lemma HandleRequestInv(t: Torrent, x: State, p: nat, payload: Bytes)
    requires Inv(t, x) && p in x.s.swarm.conns
    ensures Inv(t, After(x, HandleRequest(x.s.swarm, x.s.queue, p, payload)))
  {
    if !x.s.swarm.conns[p].amChoking && |payload| == 12 && ReadBe32(payload[8..]) <= BLOCK_SIZE {
      AskInv(t, x, BlockAsked(p, TripleOf(payload)));
    }
  }

  lemma HandlePieceInv(t: Torrent, x: State, p: nat, payload: Bytes)
    requires Inv(t, x) && p in x.s.swarm.conns
    ensures Inv(t, After(x, HandlePiece(x.s.swarm, x.s.queue, p, payload)))
  {
    if |payload| >= 8 {
      var block := BlockOf(payload);
      var k := FindPending(x.s.swarm.conns[p].pending, P.RequestOf(block));
      if k < |x.s.swarm.conns[p].pending| {
        PieceInv(t, x, p, block, k);
      }
    }
  }

  lemma HandleCancelInv(t: Torrent, x: State, p: nat, payload: Bytes)
    requires Inv(t, x) && p in x.s.swarm.conns
    ensures Inv(t, After(x, HandleCancel(x.s.swarm, x.s.queue, p, payload)))
  {
    if |payload| == 12 && ReadBe32(payload[8..]) <= BLOCK_SIZE {
      var r := TripleOf(payload);
      var k := FindAsked(x.s.queue, BlockAsked(p, r));
      if k < |x.s.queue| {
        ForgetInv(t, x, k);
      } else {
        CancelQueued(t, x, p, r);
      }
    }
  }

  lemma DeliverChokeInv(t: Torrent, x: State, p: nat, msg: Bytes, y: State)
    requires Inv(t, x) && DeliverStep(x, p, msg, y) && p in x.s.swarm.conns && msg != [] && msg[0] <= MSG_UNCHOKE
    ensures Inv(t, y)
  {
    if msg[0] == MSG_CHOKE { ChokeInv(t, x, p); } else { UnchokeInv(t, x, p); }
  }

  lemma DeliverInterestInv(t: Torrent, x: State, p: nat, msg: Bytes, y: State)
    requires Inv(t, x) && DeliverStep(x, p, msg, y) && p in x.s.swarm.conns && msg != []
    requires msg[0] == MSG_INTERESTED || msg[0] == MSG_NOT_INTERESTED
    ensures Inv(t, y)
  {
    hide Inv, HandlePiece, HandleCancel;
    FlagInv(t, x, p, x.s.swarm.conns[p].(peerInterested := msg[0] == MSG_INTERESTED));
  }

  // Whatever a peer sends, the invariant survives.
  lemma DeliverInv(t: Torrent, x: State, p: nat, msg: Bytes, y: State)
    requires Inv(t, x) && DeliverStep(x, p, msg, y)
    ensures Inv(t, y)
  {
    if p in x.s.swarm.conns && msg != [] {
      var id, payload := msg[0], msg[1..];
      if id <= MSG_UNCHOKE { DeliverChokeInv(t, x, p, msg, y); }
      else if id <= MSG_NOT_INTERESTED { DeliverInterestInv(t, x, p, msg, y); }
      else if id == MSG_HAVE { HandleHaveInv(t, x, p, payload); }
      else if id == MSG_BITFIELD { HandleBitfieldInv(t, x, p, msg); }
      else if id == MSG_REQUEST { HandleRequestInv(t, x, p, payload); }
      else if id == MSG_PIECE { HandlePieceInv(t, x, p, payload); }
      else if id == MSG_CANCEL { HandleCancelInv(t, x, p, payload); }
    }
  }

  // ----- sending -----

  // one more message in the queue
  lemma SayOk(t: Torrent, s: Session, d: seq<Msg>, p: nat, c: Conn, m: Msg)
    requires t.Valid() && |s.disk| == t.totalLength
    requires ConnOk(t, s, d, p, c) && WfMsg(m) && !m.PieceMsg?
    requires Tell(Scan(d + c.out.buffer, t.Count()), m, t.Count()) == Scan(d + c.out.buffer, t.Count())
    ensures ConnOk(t, s, d, p, Enqueued(c, m))
  {
    Outboxes.EnqueueWf(c.out, m);
    ScanAppend(d + c.out.buffer, m, t.Count());
    assert d + (c.out.buffer + [m]) == d + c.out.buffer + [m];
  }

  lemma KeepAliveInv(t: Torrent, x: State, p: nat, y: State)
    requires Inv(t, x) && KeepAliveStep(x, p, y)
    ensures Inv(t, y)
  {
    var c, d := x.s.swarm.conns[p], DeliveredTo(x.h, p);
    assert ConnOk(t, x.s, d, p, c);
    SayOk(t, x.s, d, p, c, KeepAlive);
    WithInv(t, x, p, Enqueued(c, KeepAlive), x.s.queue);
  }

  // sending moves messages from the queue to the delivered ones
  lemma TransmitConn(t: Torrent, s: Session, d: seq<Msg>, p: nat, c: Conn, w: nat, d': seq<Msg>)
    requires t.Valid() && |s.disk| == t.totalLength && ConnOk(t, s, d, p, c) && Outboxes.CanSend(c.out, w)
    requires d' == if |Outboxes.Send(c.out, w).buffer| == |c.out.buffer| then d else d + [c.out.buffer[0]]
    ensures ConnOk(t, s, d', p, c.(out := Outboxes.Send(c.out, w)))
  {
    var out := Outboxes.Send(c.out, w);
    Outboxes.SendWf(c.out, w);
    assert d' + out.buffer == d + c.out.buffer;
  }

  lemma TransmitInv(t: Torrent, x: State, p: nat, w: nat, y: State)
    requires Inv(t, x) && TransmitStep(x, p, w, y)
    ensures Inv(t, y)
  {
    var c := x.s.swarm.conns[p];
    var c' := c.(out := Outboxes.Send(c.out, w));
    assert ConnOk(t, x.s, DeliveredTo(x.h, p), p, c);
    TransmitConn(t, x.s, DeliveredTo(x.h, p), p, c, w, DeliveredTo(y.h, p));
    ConservedPut(t, x.s.pieces, x.s.swarm.conns, x.s.swarm.nextId, x.s.queue, p, c', x.s.queue);
    FrequencyKept(x.s.swarm.conns, p, c', x.s.swarm.frequency, x.h.leaked);
    ReplaceGlobal(t, x, p, c', y);
    ReplaceConns(t, x, p, c', y);
  }
}
