// What holds in every state of every run of Engine.Next.
module Invariants {
  import opened Types
  import opened Torrents
  import opened Wire
  import opened Bitfields
  import opened Swarms
  import opened Engine
  import Outboxes
  import P = Pieces
  import B = Bans

  // ----- sums over connections, by id -----

  function SumBelow(f: nat -> nat, n: nat): nat
  {
    if n == 0 then 0 else SumBelow(f, n - 1) + f(n - 1)
  }

  lemma {:induction false} SumChange(f: nat -> nat, g: nat -> nat, n: nat, p: nat)
    requires forall j :: 0 <= j < n && j != p ==> f(j) == g(j)
    ensures SumBelow(g, n) + (if p < n then f(p) else 0) == SumBelow(f, n) + (if p < n then g(p) else 0)
  {
    if n == 0 {
    } else {
      SumChange(f, g, n - 1, p);
    }
  }

  lemma {:induction false} SumSame(f: nat -> nat, g: nat -> nat, n: nat)
    requires forall j :: 0 <= j < n ==> f(j) == g(j)
    ensures SumBelow(f, n) == SumBelow(g, n)
  {
    if n == 0 {
    } else {
      SumSame(f, g, n - 1);
    }
  }

  // ----- where requests are -----

  function Asks(c: Conn, r: BlockRequest): nat
  {
    multiset(RequestsOf(c.pending))[r]
  }

  function AsksAt(conns: map<nat, Conn>, r: BlockRequest): nat -> nat
  {
    p => if p in conns then Asks(conns[p], r) else 0
  }

  // how often r is in a pending list of a connection below n
  function InFlight(conns: map<nat, Conn>, n: nat, r: BlockRequest): nat
  {
    SumBelow(AsksAt(conns, r), n)
  }

  function EventHolds(ev: Event, r: BlockRequest): nat
  {
    match ev
    case PieceArrived(_, block) => if P.RequestOf(block) == r then 1 else 0
    case Choked(_, released) => multiset(released)[r]
    case Dropped(_, released) => multiset(released)[r]
    case _ => 0
  }

  // how often r waits in an undispatched event
  function QueueHolds(q: seq<Event>, r: BlockRequest): nat
  {
    if q == [] then 0 else EventHolds(q[0], r) + QueueHolds(q[1..], r)
  }

  // A block is requested iff it is in exactly one pending list or undispatched
  // event, exactly once; any other request is nowhere.
  ghost predicate Conserved(t: Torrent, ps: P.Pieces, conns: map<nat, Conn>, n: nat, q: seq<Event>)
    requires t.Valid() && P.Wf(t, ps)
  {
    forall r :: InFlight(conns, n, r) + QueueHolds(q, r) == (if P.IsRequested(t, ps, r) then 1 else 0)
  }

  lemma InFlightPut(conns: map<nat, Conn>, n: nat, p: nat, c: Conn, r: BlockRequest)
    requires p < n
    ensures InFlight(conns[p := c], n, r) + (if p in conns then Asks(conns[p], r) else 0) ==
            InFlight(conns, n, r) + Asks(c, r)
  {
    SumChange(AsksAt(conns, r), AsksAt(conns[p := c], r), n, p);
  }

  lemma InFlightRemove(conns: map<nat, Conn>, n: nat, p: nat, r: BlockRequest)
    requires p < n && p in conns
    ensures InFlight(conns - {p}, n, r) + Asks(conns[p], r) == InFlight(conns, n, r)
  {
    SumChange(AsksAt(conns, r), AsksAt(conns - {p}, r), n, p);
  }

  lemma InFlightSame(conns: map<nat, Conn>, conns': map<nat, Conn>, n: nat, r: BlockRequest)
    requires conns.Keys == conns'.Keys && forall p :: p in conns ==> conns[p].pending == conns'[p].pending
    ensures InFlight(conns, n, r) == InFlight(conns', n, r)
  {
    SumSame(AsksAt(conns, r), AsksAt(conns', r), n);
  }

  lemma {:induction false} QueueAppend(a: seq<Event>, b: seq<Event>, r: BlockRequest)
    ensures QueueHolds(a + b, r) == QueueHolds(a, r) + QueueHolds(b, r)
  {
    if a == [] {
      assert a + b == b;
    } else {
      QueueAppend(a[1..], b, r);
      assert (a + b)[1..] == a[1..] + b;
    }
  }

  lemma {:induction false} QueueWithout(q: seq<Event>, k: nat, r: BlockRequest)
    requires k < |q|
    ensures QueueHolds(q, r) == QueueHolds(Without(q, k), r) + EventHolds(q[k], r)
  {
    if k == 0 {
      assert Without(q, 0) == q[1..];
    } else {
      QueueWithout(q[1..], k - 1, r);
      assert Without(q, k)[0] == q[0] && Without(q, k)[1..] == Without(q[1..], k - 1);
    }
  }

  // ----- availability -----

  function HolderSet(conns: map<nat, Conn>, i: nat): set<nat>
  {
    set p | p in conns && i in conns[p].has
  }

  // how many connections announced piece i
  function Holders(conns: map<nat, Conn>, i: nat): nat
  {
    |HolderSet(conns, i)|
  }

  // a 16-bit counter
  ghost predicate CountOk(f: nat, holders: nat, leaked: nat)
  {
    f == (holders + leaked) % 0x1_0000
  }

  ghost predicate FrequencyOk(conns: map<nat, Conn>, frequency: seq<nat>, leaked: seq<nat>)
  {
    && |leaked| == |frequency|
    && forall i :: 0 <= i < |frequency| ==> CountOk(frequency[i], Holders(conns, i), leaked[i])
  }

  // ----- what a peer was told -----

  datatype Announcement = Fresh | Told(pieces: set<nat>) | Garbled

  // A correct stream is handshake and keep-alives, one bitfield, and then have
  // messages that each name a piece not announced before.
  function Tell(a: Announcement, m: Msg, count: nat): Announcement
  {
    match a
    case Garbled => Garbled
    case Fresh =>
      (match m
       case Handshake(_, _) => Fresh
       case KeepAlive => Fresh
       case BitfieldMsg(bytes) => (match FromBytes(bytes, count) case None => Garbled case Some(s) => Told(s))
       case _ => Garbled)
    case Told(s) =>
      (match m
       case Have(i) => if i in s then Garbled else Told(s + {i})
       case Handshake(_, _) => Garbled
       case BitfieldMsg(_) => Garbled
       case _ => a)
  }

  function Scan(log: seq<Msg>, count: nat): Announcement
  {
    if log == [] then Fresh else Tell(Scan(log[..|log| - 1], count), log[|log| - 1], count)
  }

  lemma ScanAppend(log: seq<Msg>, m: Msg, count: nat)
    ensures Scan(log + [m], count) == Tell(Scan(log, count), m, count)
  {
    assert (log + [m])[..|log|] == log;
  }

  // Taking a piece message out of the stream does not change what it announces.
  lemma {:induction false} ScanWithout(log: seq<Msg>, k: nat, count: nat)
    requires k < |log| && log[k].PieceMsg? && Scan(log, count) != Garbled
    ensures Scan(Without(log, k), count) == Scan(log, count)
  {
    var n := |log| - 1;
    if k == n {
      assert Without(log, k) == log[..n];
    } else {
      ScanWithout(log[..n], k, count);
      assert Without(log, k)[..n - 1] == Without(log[..n], k);
      assert Without(log, k)[n - 1] == log[n];
    }
  }

  // ----- per connection -----

  // piece messages in the queue never exceed the limit by more than the one
  // message that was let in below it
  const MAX_PIECE_BYTES: nat := Outboxes.MAX_QUEUED + 13 + BLOCK_SIZE

  ghost predicate SendOk(out: Outboxes.Outbox)
  {
    Outboxes.Wf(out) && Outboxes.PieceTotal(out.buffer) < MAX_PIECE_BYTES
  }

  // requests in send order, at most a pipeline full
  ghost predicate PendingOk(pending: seq<PendingRequest>, clock: int)
  {
    && |pending| <= PIPELINE_DEPTH
    && (forall j, k :: 0 <= j < k < |pending| ==> pending[j].sentAt <= pending[k].sentAt)
    && (forall k :: 0 <= k < |pending| ==> pending[k].sentAt <= clock)
  }

  // a connection is either known to the ban manager or still waiting to be greeted
  ghost predicate Known(hosts: map<nat, Host>, q: seq<Event>, p: nat, c: Conn)
  {
    if Joined(p) in q then p !in hosts && c.pending == []
    else p in hosts && hosts[p] == c.host
  }

  ghost predicate ServedOk(t: Torrent, have: set<nat>, disk: Bytes, m: Msg)
    requires t.Valid() && |disk| == t.totalLength
  {
    m.PieceMsg? ==>
      && m.piece in have && m.piece < t.Count()
      && |m.data| <= BLOCK_SIZE && m.begin + |m.data| <= t.Size(m.piece)
      && m.data == t.PieceOf(disk, m.piece)[m.begin..m.begin + |m.data|]
  }

  // everything said on this connection, delivered or queued
  ghost predicate Spoken(t: Torrent, have: set<nat>, disk: Bytes, joining: bool, log: seq<Msg>)
    requires t.Valid() && |disk| == t.totalLength
  {
    && Scan(log, t.Count()) == (if joining then Fresh else Told(have))
    && forall m :: m in log ==> ServedOk(t, have, disk, m)
  }

  ghost predicate ConnOk(t: Torrent, s: Session, delivered: seq<Msg>, p: nat, c: Conn)
    requires t.Valid() && |s.disk| == t.totalLength
  {
    && p < s.swarm.nextId
    && c.host !in s.swarm.banned
    && Known(s.bans.hosts, s.queue, p, c)
    && PendingOk(c.pending, s.clock)
    && SendOk(c.out)
    && Spoken(t, s.pieces.have, s.disk, Joined(p) in s.queue, delivered + c.out.buffer)
  }

  // ----- the event queue -----

  ghost predicate EventOk(ev: Event, nextId: nat, hosts: map<nat, Host>)
  {
    match ev
    case Joined(p) => p < nextId && p !in hosts
    case PieceArrived(p, _) => p in hosts
    case BlockAsked(_, req) => req.length <= BLOCK_SIZE && req.offset < TWO_32
    case _ => true
  }

  // newcomers are announced first, and once each
  ghost predicate QueueOk(q: seq<Event>, nextId: nat, hosts: map<nat, Host>)
  {
    && (forall k :: 0 <= k < |q| ==> EventOk(q[k], nextId, hosts))
    && (forall j, k :: 0 <= j < k < |q| && q[k].Joined? ==> q[j].Joined? && q[j] != q[k])
  }

  // ----- who sent what -----

  // a received block is the one its recorded sender sent in this attempt
  ghost predicate SlotOk(t: Torrent, data: Bytes, bs: B.Bans, arrivals: map<(nat, nat), Arrival>, i: nat, b: nat)
    requires t.Valid() && i < t.Count() && |data| == t.Size(i) && b < t.Blocks(i)
  {
    && i in bs.senders
    && b < |bs.senders[i]|
    && bs.senders[i][b] in bs.hosts
    && (i, b) in arrivals
    && arrivals[(i, b)] == Arrival(bs.senders[i][b], t.Slice(i, b, data))
  }

  ghost predicate Attributed(t: Torrent, ps: P.Pieces, bs: B.Bans, arrivals: map<(nat, nat), Arrival>)
    requires t.Valid() && P.Wf(t, ps)
  {
    && (forall i :: i in bs.senders ==> i in ps.active && |bs.senders[i]| <= t.Blocks(i))
    && (forall i, b :: i in ps.active && 0 <= b < |ps.active[i].states| && ps.active[i].states[b] == P.Received ==>
          SlotOk(t, ps.active[i].data, bs, arrivals, i, b))
    && (forall i, b :: (i, b) in arrivals ==> Holds(ps, i, b))
  }

  ghost predicate Holds(ps: P.Pieces, i: nat, b: nat)
  {
    i in ps.active && b < |ps.active[i].states| && ps.active[i].states[b] == P.Received
  }

  // kept evidence is a failed attempt at a piece still needed, every sender known
  ghost predicate EvidenceOk(t: Torrent, have: set<nat>, bs: B.Bans)
    requires t.Valid()
  {
    forall i :: i in bs.evidence ==>
      && EvidenceShaped(t, i, bs.evidence[i])
      && i !in have
      && !t.Verify(i, bs.evidence[i].data)
      && forall b :: 0 <= b < |bs.evidence[i].senders| ==> bs.evidence[i].senders[b] in bs.hosts
  }

  ghost predicate DiskOk(t: Torrent, have: set<nat>, disk: Bytes)
    requires t.Valid() && |disk| == t.totalLength
  {
    forall i :: i in have ==> i < t.Count() && t.Verify(i, t.PieceOf(disk, i))
  }

  ghost predicate Unowned(ps: P.Pieces)
  {
    forall i :: i in ps.active ==> ps.active[i].owner == None
  }

  ghost predicate CompletionOk(t: Torrent, s: Session, resumed: bool)
  {
    && (s.completed ==> s.pieces.haveCount == t.Count())
    && (s.notified ==> s.completed && !resumed)
    && (resumed ==> s.completed)
  }

  ghost predicate IdsOk(s: Session, h: History)
  {
    && (forall p :: p in s.bans.hosts ==> p < s.swarm.nextId)
    && (forall p :: p in h.delivered ==> p < s.swarm.nextId)
    && |s.swarm.conns| + |s.swarm.handshaking| <= MAX_PEERS
  }

  // requests, counts, events and ids
  ghost predicate Books(t: Torrent, x: State)
  {
    && Shaped(t, x.s)
    && FrequencyOk(x.s.swarm.conns, x.s.swarm.frequency, x.h.leaked)
    && QueueOk(x.s.queue, x.s.swarm.nextId, x.s.bans.hosts)
    && IdsOk(x.s, x.h)
    && Conserved(t, x.s.pieces, x.s.swarm.conns, x.s.swarm.nextId, x.s.queue)
  }

  // pieces, who sent them, and what is on disk
  ghost predicate Holdings(t: Torrent, x: State)
    requires Shaped(t, x.s)
  {
    && Attributed(t, x.s.pieces, x.s.bans, x.h.arrivals)
    && EvidenceOk(t, x.s.pieces.have, x.s.bans)
    && DiskOk(t, x.s.pieces.have, x.s.disk)
    && Unowned(x.s.pieces)
    && CompletionOk(t, x.s, x.h.resumed)
  }

  // everything but the connections one by one
  ghost predicate Global(t: Torrent, x: State)
  {
    Books(t, x) && Holdings(t, x)
  }

  ghost predicate Conns(t: Torrent, x: State)
    requires t.Valid() && |x.s.disk| == t.totalLength
  {
    forall p :: p in x.s.swarm.conns ==> ConnOk(t, x.s, DeliveredTo(x.h, p), p, x.s.swarm.conns[p])
  }

  ghost predicate Inv(t: Torrent, x: State)
  {
    Global(t, x) && Conns(t, x)
  }

  lemma InitBooks(t: Torrent, x: State)
    requires Init(t, x)
    ensures Books(t, x)
  {
    forall r ensures InFlight(x.s.swarm.conns, 0, r) + QueueHolds([], r) == 0 {
    }
  }

  lemma InitHoldings(t: Torrent, x: State)
    requires Init(t, x) && Shaped(t, x.s)
    ensures Holdings(t, x)
  {
  }

  lemma BooksShaped(t: Torrent, x: State)
    requires Books(t, x)
    ensures Shaped(t, x.s)
  {
  }

  lemma InitInv(t: Torrent, x: State)
    requires Init(t, x)
    ensures Inv(t, x)
  {
    hide Books, Holdings, Shaped;
    InitBooks(t, x);
    BooksShaped(t, x);
    InitHoldings(t, x);
  }
}
