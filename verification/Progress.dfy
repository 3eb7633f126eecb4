// No wanted piece is out of reach: while a peer that has it is connected,
// unchokes us and only sends true blocks, its answers alone bring the piece in.
module Progress {
  import opened Types
  import opened Torrents
  import opened Wire
  import opened Swarms
  import opened Engine
  import opened Invariants
  import opened Dispatching
  import opened Arrivals
  import opened Runs
  import opened Honesty
  import opened Guarantees
  import Availability
  import opened PeerManagers
  import P = Pieces
  import B = Bans
  import S = Streams

  // ----- what the continuation may consist of -----

  // our own steps, and true answers of this peer
  ghost function Answering(p: nat, truth: nat -> Bytes): Action -> bool
  {
    (a: Action) =>
      || a.DispatchNext? || a.ExpireAt? || (a.Schedule? && a.peer == p)
      || (a.Deliver? && a.peer == p && |a.msg| >= 9 && a.msg[0] == MSG_PIECE && Genuine(truth, BlockOf(a.msg[1..])))
  }

  // the peer is connected, unchokes us, and its host has always been honest
  ghost predicate Ready(t: Torrent, honest: set<Host>, truth: nat -> Bytes, x: State, p: nat)
  {
    && Inv(t, x) && t.Valid() && Exact(t, truth) && HonestInv(t, honest, truth, x)
    && p in x.s.swarm.conns && x.s.swarm.conns[p].host in honest && !x.s.swarm.conns[p].peerChoking
  }

  ghost predicate SamePeer(x: State, y: State, p: nat)
  {
    && p in x.s.swarm.conns && p in y.s.swarm.conns
    && var c, c' := x.s.swarm.conns[p], y.s.swarm.conns[p];
    && c'.host == c.host && c'.has == c.has && c'.peerChoking == c.peerChoking
  }

  // x can be continued to y, where the peer still is and nothing owned is lost
  ghost predicate Reaches(t: Torrent, honest: set<Host>, truth: nat -> Bytes, start: State, p: nat, y: State)
  {
    && Leads(t, start, Answering(p, truth), y)
    && Ready(t, honest, truth, y, p)
    && SamePeer(start, y, p)
    && start.s.pieces.have <= y.s.pieces.have
  }

  lemma ReachesHere(t: Torrent, honest: set<Host>, truth: nat -> Bytes, x: State, p: nat)
    requires Ready(t, honest, truth, x, p)
    ensures Reaches(t, honest, truth, x, p, x)
  {
    hide Leads, Inv, HonestInv, Exact;
    LeadsNowhere(t, x, Answering(p, truth));
  }

  lemma HaveGrows(t: Torrent, x: State, a: Action, y: State)
    requires Shaped(t, x.s) && Next(t, x, a, y)
    ensures x.s.pieces.have <= y.s.pieces.have
  {
    hide Next;
    NextKeepsOwned(t, x, a, y);
  }

  lemma Onward(t: Torrent, honest: set<Host>, truth: nat -> Bytes, start: State, p: nat, x: State, a: Action, y: State)
    requires Reaches(t, honest, truth, start, p, x) && Shaped(t, x.s) && Next(t, x, a, y)
    requires Answering(p, truth)(a) && SamePeer(x, y, p)
    ensures Reaches(t, honest, truth, start, p, y)
  {
    hide Inv, HonestInv, Exact, Leads, Next, Shaped;
    NextInv(t, x, a, y);
    NextHonest(t, honest, truth, x, a, y);
    HaveGrows(t, x, a, y);
    LeadsStep(t, start, Answering(p, truth), x, a, y);
  }

  // ----- dispatching keeps the peer -----

  // y's connections are some of x's, with the same requests; p is among them as before
  ghost predicate Remains(x: Swarm, y: Swarm, p: nat)
  {
    && (forall q :: q in y.conns ==> q in x.conns && y.conns[q].pending == x.conns[q].pending)
    && p in x.conns && p in y.conns
    && var c, c' := x.conns[p], y.conns[p];
    && c'.host == c.host && c'.has == c.has && c'.peerChoking == c.peerChoking
  }

  lemma {:induction false} DropHostSpares(sw: Swarm, host: Host, order: seq<nat>, p: nat)
    requires p in sw.conns && sw.conns[p].host != host
    ensures p in DropHost(sw, host, order).0.conns
    decreases |order|
  {
    if order == [] {
    } else if order[0] in sw.conns && sw.conns[order[0]].host == host {
      DropHostSpares(Drop(sw, order[0]).0, host, order[1..], p);
    } else {
      DropHostSpares(sw, host, order[1..], p);
    }
  }

  lemma {:induction false} BansSpare(s: Session, hosts: seq<Host>, order: Host -> seq<nat>, p: nat)
    requires p in s.swarm.conns && s.swarm.conns[p].host !in hosts
    ensures p in BanHosts(s, hosts, order).swarm.conns
    decreases |hosts|
  {
    if hosts == [] {
    } else {
      var host := hosts[0];
      var sw := s.swarm.(banned := s.swarm.banned + {host});
      DropHostSpares(sw, host, order(host), p);
      DropHostKeeps(sw, host, order(host));
      BansSpare(BanHost(s, host, order(host)), hosts[1..], order, p);
    }
  }

  lemma FiledRemains(t: Torrent, s: Session, from: nat, block: Block, p: nat)
    requires Shaped(t, s) && p in s.swarm.conns
    ensures Remains(s.swarm, FilePiece(t, s, from, block).0.swarm, p)
  {
    hide P.OnBlock, B.OnPieceVerified, B.OnPieceFailed, Shaped;
  }

  lemma JoinedRemains(t: Torrent, s: Session, from: nat, p: nat)
    requires p in s.swarm.conns
    ensures Remains(s.swarm, OnJoined(t, s, from).swarm, p)
  {
    S.KeysKept(t, s, from);
    if from in s.swarm.conns {
      GreetIs(t, s.(bans := B.OnJoin(s.bans, from, s.swarm.conns[from].host)), from);
    }
  }

  lemma VerdictRemains(t: Torrent, s: Session, from: nat, block: Block, order: Host -> seq<nat>, p: nat)
    requires Shaped(t, s) && p in s.swarm.conns
    requires s.swarm.conns[p].host !in FilePiece(t, s, from, block).1
    ensures Remains(s.swarm, OnPiece(t, s, from, block, order).swarm, p)
  {
    hide FilePiece, BanHosts, Shaped;
    var (s1, hosts) := FilePiece(t, s, from, block);
    FiledRemains(t, s, from, block, p);
    BansSpare(s1, hosts, order, p);
    S.BansKeepConns(s1, hosts, order);
  }

  lemma DispatchRemains(t: Torrent, honest: set<Host>, truth: nat -> Bytes, x: State, order: Host -> seq<nat>,
                        y: State, p: nat)
    requires Ready(t, honest, truth, x, p) && Shaped(t, x.s) && DispatchStep(t, x, order, y)
    ensures y.s.queue == x.s.queue[1..] && Remains(x.s.swarm, y.s.swarm, p)
  {
    hide Inv, HonestInv, Exact, OnPiece, OnJoined, Shaped, ArrivalsWith;
    var s := x.s.(queue := x.s.queue[1..]);
    S.TailShaped(t, x.s);
    DispatchQueue(t, x.s, order);
    match x.s.queue[0]
    case Joined(from) => JoinedRemains(t, s, from, p);
    case PieceArrived(from, block) =>
      FilePieceHonest(t, honest, truth, x, from, block);
      VerdictRemains(t, s, from, block, order, p);
    case _ =>
  }

  lemma DispatchOnward(t: Torrent, honest: set<Host>, truth: nat -> Bytes, start: State, p: nat,
                       x: State) returns (y: State)
    requires Reaches(t, honest, truth, start, p, x) && Shaped(t, x.s) && x.s.queue != []
    ensures Reaches(t, honest, truth, start, p, y) && Shaped(t, y.s)
    ensures y.s.queue == x.s.queue[1..] && Remains(x.s.swarm, y.s.swarm, p)
    ensures var keys := KeySeq(x.s.swarm.conns); DispatchStep(t, x, _ => keys, y)
  {
    hide Inv, HonestInv, Exact, Leads, Dispatch, Shaped, ArrivalsWith;
    var keys := KeySeq(x.s.swarm.conns);
    var order: Host -> seq<nat> := _ => keys;
    y := State(Dispatch(t, x.s, order),
               match x.s.queue[0]
               case PieceArrived(q, block) =>
                 x.h.(arrivals := (ShapedValid(t, x.s); ArrivalsWith(t, x.s.pieces, x.h.arrivals, q, block)))
               case _ => x.h);
    assert DispatchStep(t, x, order, y);
    DispatchRemains(t, honest, truth, x, order, y, p);
    Onward(t, honest, truth, start, p, x, DispatchNext(order), y);
    InvShaped(t, y);
  }

  lemma ShapedValid(t: Torrent, s: Session)
    requires Shaped(t, s)
    ensures t.Valid()
  {
  }

  lemma {:induction false} EmptyQueue(t: Torrent, honest: set<Host>, truth: nat -> Bytes, start: State, p: nat,
                                      x: State) returns (y: State)
    requires Reaches(t, honest, truth, start, p, x) && Shaped(t, x.s)
    ensures Reaches(t, honest, truth, start, p, y) && Shaped(t, y.s) && y.s.queue == []
    decreases |x.s.queue|
  {
    hide Reaches, Shaped, Dispatch, Remains;
    if x.s.queue == [] {
      y := x;
    } else {
      var z := DispatchOnward(t, honest, truth, start, p, x);
      y := EmptyQueue(t, honest, truth, start, p, z);
    }
  }

  // ----- giving every request back -----

  // no event waits and nobody has been asked for anything
  ghost predicate Quiet(x: State)
  {
    x.s.queue == [] && forall q :: q in x.s.swarm.conns ==> x.s.swarm.conns[q].pending == []
  }

  lemma NoneLater(t: Torrent, x: State, q: nat)
    requires Inv(t, x) && q in x.s.swarm.conns
    ensures PendingOk(x.s.swarm.conns[q].pending, x.s.clock)
  {
    assert ConnOk(t, x.s, DeliveredTo(x.h, q), q, x.s.swarm.conns[q]);
  }

  lemma ExpireEmpties(s: Session, q: nat)
    requires q in s.swarm.conns && PendingOk(s.swarm.conns[q].pending, s.clock)
    ensures var c := s.swarm.conns[q];
            Expire(s, q, s.clock + 1).swarm.conns ==
            s.swarm.conns[q := if c.pending == [] then c else c.(pending := [], snubbed := true)]
  {
    hide P.Release;
    var c := s.swarm.conns[q];
    assert StaleCount(c.pending, s.clock + 1) == |c.pending|;
    assert c.pending[|c.pending|..] == [];
  }

  ghost predicate QuietAmong(x: State, keys: seq<nat>)
  {
    forall q :: q in x.s.swarm.conns && q in keys ==> x.s.swarm.conns[q].pending == []
  }

  lemma ExpireOnward(t: Torrent, honest: set<Host>, truth: nat -> Bytes, start: State, p: nat, x: State, q: nat)
      returns (y: State)
    requires Reaches(t, honest, truth, start, p, x) && Shaped(t, x.s) && x.s.queue == [] && q in x.s.swarm.conns
    ensures Reaches(t, honest, truth, start, p, y) && Shaped(t, y.s) && y.s.queue == []
    ensures y.s.swarm.conns.Keys == x.s.swarm.conns.Keys && y.s.swarm.conns[q].pending == []
    ensures forall keys :: QuietAmong(x, keys) ==> QuietAmong(y, keys + [q])
  {
    hide Inv, HonestInv, Exact, Leads, Shaped, Expire;
    y := x.(s := Expire(x.s, q, x.s.clock + 1));
    NoneLater(t, x, q);
    ExpireEmpties(x.s, q);
    ExpireQueue(x.s, q, x.s.clock + 1);
    Onward(t, honest, truth, start, p, x, ExpireAt(q, x.s.clock + 1), y);
    InvShaped(t, y);
  }

  lemma ExpireQueue(s: Session, q: nat, cutoff: int)
    requires q in s.swarm.conns
    ensures Expire(s, q, cutoff).queue == s.queue
  {
  }

  lemma {:induction false} SettleSome(t: Torrent, honest: set<Host>, truth: nat -> Bytes, start: State, p: nat,
                                      x: State,
                                      keys: seq<nat>, n: nat) returns (y: State)
    requires Reaches(t, honest, truth, start, p, x) && Shaped(t, x.s) && x.s.queue == []
    requires n <= |keys| && forall q :: q in keys ==> q in x.s.swarm.conns
    ensures Reaches(t, honest, truth, start, p, y) && Shaped(t, y.s) && y.s.queue == []
    ensures y.s.swarm.conns.Keys == x.s.swarm.conns.Keys && QuietAmong(y, keys[..n])
    decreases n
  {
    hide Reaches, Shaped;
    if n == 0 {
      y := x;
    } else {
      var z := SettleSome(t, honest, truth, start, p, x, keys, n - 1);
      y := ExpireOnward(t, honest, truth, start, p, z, keys[n - 1]);
      assert keys[..n] == keys[..n - 1] + [keys[n - 1]];
    }
  }

  // First everything that waits is dispatched, then every request is given back.
  lemma Settle(t: Torrent, honest: set<Host>, truth: nat -> Bytes, start: State, p: nat, x: State) returns (y: State)
    requires Reaches(t, honest, truth, start, p, x) && Shaped(t, x.s)
    ensures Reaches(t, honest, truth, start, p, y) && Shaped(t, y.s) && Quiet(y)
  {
    hide Reaches, Shaped;
    var z := EmptyQueue(t, honest, truth, start, p, x);
    var keys := KeySeq(z.s.swarm.conns);
    y := SettleSome(t, honest, truth, start, p, z, keys, |keys|);
    assert keys[..|keys|] == keys;
  }

  lemma {:induction false} NothingBelowN(f: nat -> nat, n: nat)
    requires forall j :: 0 <= j < n ==> f(j) == 0
    ensures SumBelow(f, n) == 0
  {
    if n == 0 {
    } else {
      NothingBelowN(f, n - 1);
    }
  }

  lemma NoneInFlight(t: Torrent, ps: P.Pieces, conns: map<nat, Conn>, n: nat, j: nat, b: nat)
    requires t.Valid() && P.Wf(t, ps) && Conserved(t, ps, conns, n, [])
    requires forall q :: q in conns ==> conns[q].pending == []
    requires j in ps.active && b < |ps.active[j].states|
    ensures ps.active[j].states[b] != P.Requested
  {
    var r := t.Request(j, b);
    assert r.offset / BLOCK_SIZE == b;
    NothingBelowN(AsksAt(conns, r), n);
    assert InFlight(conns, n, r) + QueueHolds([], r) == (if P.IsRequested(t, ps, r) then 1 else 0);
  }

  // By conservation, no block is marked Requested then.
  lemma NoneRequested(t: Torrent, x: State, j: nat, b: nat)
    requires Inv(t, x) && Quiet(x) && j in x.s.pieces.active && b < |x.s.pieces.active[j].states|
    ensures x.s.pieces.active[j].states[b] != P.Requested
  {
    NoneInFlight(t, x.s.pieces, x.s.swarm.conns, x.s.swarm.nextId, j, b);
  }

  // ----- one question and its answer -----

  function TrueBlock(truth: nat -> Bytes, req: BlockRequest): Block
    requires req.offset + req.length <= |truth(req.piece)|
  {
    Block(req.piece, req.offset, truth(req.piece)[req.offset..req.offset + req.length])
  }

  function Answer(truth: nat -> Bytes, req: BlockRequest): Bytes
    requires req.offset + req.length <= |truth(req.piece)|
  {
    [MSG_PIECE] + (Be32(req.piece) + (Be32(req.offset) + TrueBlock(truth, req).data))
  }

  lemma AnswerCarries(truth: nat -> Bytes, req: BlockRequest)
    requires req.offset + req.length <= |truth(req.piece)| && req.piece < TWO_32 && req.offset < TWO_32
    ensures var msg := Answer(truth, req);
            |msg| >= 9 && msg[0] == MSG_PIECE && BlockOf(msg[1..]) == TrueBlock(truth, req)
  {
    hide Be32, ReadBe32;
    var msg, data := Answer(truth, req), TrueBlock(truth, req).data;
    var body := Be32(req.piece) + (Be32(req.offset) + data);
    assert msg[1..] == body;
    Be32RoundTrip(req.piece, Be32(req.offset) + data);
    Be32RoundTrip(req.offset, data);
    assert body[4..] == Be32(req.offset) + data && body[8..] == data;
  }

  lemma AnswerHandled(sw: Swarm, p: nat, truth: nat -> Bytes, req: BlockRequest, now: int)
    requires p in sw.conns && sw.conns[p].pending == [PendingRequest(req, now)]
    requires req.offset + req.length <= |truth(req.piece)| && req.piece < TWO_32 && req.offset < TWO_32
    ensures HandleMessage(sw, [], p, Answer(truth, req)) ==
            Handled(Put(sw, p, sw.conns[p].(pending := [], snubbed := false)),
                    [PieceArrived(p, TrueBlock(truth, req))], true)
  {
    hide Answer, BlockOf;
    AnswerCarries(truth, req);
    var c := sw.conns[p];
    assert FindPending(c.pending, req) == 0;
    assert Without(c.pending, 0) == [];
  }

  // ask for a picked block and be answered; only the verdict is still to come
  lemma Answered(t: Torrent, honest: set<Host>, truth: nat -> Bytes, start: State, p: nat, x: State,
                 picked: P.Pieces, req: BlockRequest) returns (y: State)
    requires Reaches(t, honest, truth, start, p, x) && Shaped(t, x.s) && Quiet(x)
    requires P.PickStep(t, x.s.pieces, x.s.swarm.conns[p].has, x.s.swarm.frequency, p, picked, Some(req))
    requires req.offset + req.length <= |truth(req.piece)| && req.piece < TWO_32 && req.offset < TWO_32
    ensures Reaches(t, honest, truth, start, p, y) && Shaped(t, y.s)
    ensures y.s.pieces == picked && y.h.arrivals == x.h.arrivals
    ensures y.s.queue == [PieceArrived(p, TrueBlock(truth, req))]
    ensures forall q :: q in y.s.swarm.conns ==> y.s.swarm.conns[q].pending == []
  {
    hide Inv, HonestInv, Exact, Leads, Shaped, P.PickStep, HandleMessage, Answer;
    var s, now := x.s, x.s.clock;
    var x1 := x.(s := s.(pieces := picked, swarm := SendRequest(s.swarm, p, req, now), clock := now));
    Onward(t, honest, truth, start, p, x, Schedule(p, now, picked, req), x1);
    InvShaped(t, x1);
    assert x1.s.swarm.conns[p].pending == [PendingRequest(req, now)];
    AnswerHandled(x1.s.swarm, p, truth, req, now);
    AnswerCarries(truth, req);
    var msg := Answer(truth, req);
    var r := HandleMessage(x1.s.swarm, x1.s.queue, p, msg);
    y := State(x1.s.(swarm := r.swarm, queue := r.queue), x1.h.(leaked := LeakedBy(x1, p, msg)));
    Onward(t, honest, truth, start, p, x1, Deliver(p, msg), y);
    InvShaped(t, y);
  }

  // ----- the verdict -----

  lemma {:induction false} ReleaseKeepsActive(ps: P.Pieces, evs: seq<Event>)
    ensures var ps' := ReleaseEvents(ps, evs);
            && ps'.have == ps.have && ps'.active.Keys == ps.active.Keys
            && forall i :: i in ps.active ==> ps'.active[i].received == ps.active[i].received
    decreases |evs|
  {
    if evs == [] {
    } else {
      ReleaseKeepsActive(if evs[0].Dropped? || evs[0].Choked? then P.Release(ps, evs[0].released) else ps, evs[1..]);
    }
  }

  lemma {:induction false} BansKeepActive(s: Session, hosts: seq<Host>, order: Host -> seq<nat>)
    ensures var ps, ps' := s.pieces, BanHosts(s, hosts, order).pieces;
            && ps'.have == ps.have && ps'.active.Keys == ps.active.Keys
            && forall i :: i in ps.active ==> ps'.active[i].received == ps.active[i].received
    decreases |hosts|
  {
    if hosts == [] {
    } else {
      ReleaseKeepsActive(s.pieces, Ban(s.swarm, hosts[0], order(hosts[0])).1);
      BansKeepActive(BanHost(s, hosts[0], order(hosts[0])), hosts[1..], order);
    }
  }

  lemma FiledPieces(t: Torrent, s: Session, from: nat, block: Block)
    requires Shaped(t, s)
    ensures FilePiece(t, s, from, block).0.pieces == P.OnBlock(t, s.pieces, block).0
  {
  }

  // what is left of the piece after its block has been dispatched
  lemma DispatchedPieces(t: Torrent, x: State, order: Host -> seq<nat>, y: State)
    requires Shaped(t, x.s) && x.s.queue != [] && x.s.queue[0].PieceArrived? && DispatchStep(t, x, order, y)
    ensures var ps, ps' := P.OnBlock(t, x.s.pieces, x.s.queue[0].block).0, y.s.pieces;
            && ps'.have == ps.have && ps'.active.Keys == ps.active.Keys
            && forall i :: i in ps.active ==> ps'.active[i].received == ps.active[i].received
  {
    hide FilePiece, BanHosts, Shaped, ArrivalsWith, P.OnBlock;
    var p, block, s := x.s.queue[0].peer, x.s.queue[0].block, x.s.(queue := x.s.queue[1..]);
    S.TailShaped(t, x.s);
    FiledPieces(t, s, p, block);
    BansKeepActive(FilePiece(t, s, p, block).0, FilePiece(t, s, p, block).1, order);
  }

  // every block on record for the piece is the true one
  ghost predicate AllTrue(t: Torrent, truth: nat -> Bytes, x: State, j: nat)
    requires t.Valid() && j < t.Count() && |truth(j)| == t.Size(j)
  {
    forall b :: (j, b) in x.h.arrivals ==> b < t.Blocks(j) && x.h.arrivals[(j, b)].data == t.Slice(j, b, truth(j))
  }

  // an attempt whose blocks are all true verifies
  lemma TrueAttempt(t: Torrent, truth: nat -> Bytes, bs: B.Bans, arrivals: map<(nat, nat), Arrival>, j: nat,
                    data: Bytes)
    requires t.Valid() && Attempt(t, bs, arrivals, j, data) && |truth(j)| == t.Size(j)
    requires forall b :: (j, b) in arrivals ==> b < t.Blocks(j) && arrivals[(j, b)].data == t.Slice(j, b, truth(j))
    ensures data == truth(j)
  {
    forall b | 0 <= b < t.Blocks(j) ensures t.Slice(j, b, data) == t.Slice(j, b, truth(j)) {
      assert SlotOk(t, data, bs, arrivals, j, b);
    }
    AllFromHonest(t, truth, j, data);
  }

  // the block is the true block b of piece j
  ghost predicate TrueFor(t: Torrent, truth: nat -> Bytes, block: Block, j: nat)
    requires t.Valid() && j < t.Count() && |truth(j)| == t.Size(j)
  {
    var b := block.offset / BLOCK_SIZE;
    block.piece == j && b < t.Blocks(j) && block.data == t.Slice(j, b, truth(j))
  }

  lemma ArrivedTrue(t: Torrent, truth: nat -> Bytes, arrivals: map<(nat, nat), Arrival>, p: nat, block: Block, j: nat)
    requires t.Valid() && j < t.Count() && |truth(j)| == t.Size(j) && TrueFor(t, truth, block, j)
    requires forall b :: (j, b) in arrivals ==> b < t.Blocks(j) && arrivals[(j, b)].data == t.Slice(j, b, truth(j))
    ensures var more := Arrived(arrivals, p, block);
            forall b :: (j, b) in more ==> b < t.Blocks(j) && more[(j, b)].data == t.Slice(j, b, truth(j))
  {
  }

  // how the attempt at j stands in y: one block further, or ended by a failure that clears the record
  ghost predicate Further(t: Torrent, truth: nat -> Bytes, x: State, y: State, j: nat)
    requires t.Valid() && j < t.Count() && |truth(j)| == t.Size(j)
  {
    && j in x.s.pieces.active && j in y.s.pieces.active
    && if y.s.pieces.active[j].received == x.s.pieces.active[j].received + 1
       then AllTrue(t, truth, x, j) ==> AllTrue(t, truth, y, j)
       else AllTrue(t, truth, y, j) && !AllTrue(t, truth, x, j)
  }

  lemma FailedMeansFalse(t: Torrent, truth: nat -> Bytes, x: State, p: nat, block: Block, data: Bytes, ps: P.Pieces,
                         j: nat)
    requires t.Valid() && Exact(t, truth) && j < t.Count() && TrueFor(t, truth, block, j)
    requires Expected(t, x.s.pieces, x.s.bans, x.h.arrivals, p, block) && Fails(t, x.s.pieces, block, data, ps)
    ensures !AllTrue(t, truth, x, j)
  {
    CompletedAttempt(t, x.s.pieces, x.s.bans, x.h.arrivals, p, block, data, ps);
    if AllTrue(t, truth, x, j) {
      ArrivedTrue(t, truth, x.h.arrivals, p, block, j);
      TrueAttempt(t, truth, B.OnBlock(x.s.bans, p, block), Arrived(x.h.arrivals, p, block), j, data);
    }
  }

  lemma VerdictOn(t: Torrent, truth: nat -> Bytes, x: State, order: Host -> seq<nat>, y: State, p: nat, block: Block,
                  j: nat)
    requires Inv(t, x) && Shaped(t, x.s) && t.Valid() && Exact(t, truth) && j < t.Count() && TrueFor(t, truth, block, j)
    requires x.s.queue != [] && x.s.queue[0] == PieceArrived(p, block) && DispatchStep(t, x, order, y)
    ensures j in y.s.pieces.have || Further(t, truth, x, y, j)
  {
    hide Inv, Shaped, Exact, AllTrue, Dispatch, P.OnBlock, Fails, Passes, P.IsRequested, Expected, TrueFor, P.Wf,
        P.Stored;
    ExactSize(t, truth, j);
    TrueForPiece(t, truth, block, j);
    InvExpected(t, x, p, block);
    OnBlockOutcome(t, x.s.pieces, block);
    DispatchedPieces(t, x, order, y);
    var (ps, res) := P.OnBlock(t, x.s.pieces, block);
    match res
    case Incomplete => IncompleteFurther(t, truth, x, y, p, block, ps, j);
    case PieceFailed(i, data) =>
      FailsKeeps(t, x.s.pieces, block, data, ps);
      FailedMeansFalse(t, truth, x, p, block, data, ps, j);
      ForgottenTrue(t, truth, x, y, j);
    case PieceVerified(i, data) => PassesOwns(t, x.s.pieces, block, data, ps);
  }

  lemma InvExpected(t: Torrent, x: State, p: nat, block: Block)
    requires Inv(t, x) && x.s.queue != [] && x.s.queue[0] == PieceArrived(p, block)
    ensures t.Valid() && P.Wf(t, x.s.pieces) && Expected(t, x.s.pieces, x.s.bans, x.h.arrivals, p, block)
    ensures P.IsRequested(t, x.s.pieces, P.RequestOf(block)) && block.piece in x.s.pieces.active
  {
    ArrivalExpected(t, x);
  }

  lemma ExactSize(t: Torrent, truth: nat -> Bytes, j: nat)
    requires t.Valid() && Exact(t, truth) && j < t.Count()
    ensures |truth(j)| == t.Size(j)
  {
  }

  lemma TrueForPiece(t: Torrent, truth: nat -> Bytes, block: Block, j: nat)
    requires t.Valid() && j < t.Count() && |truth(j)| == t.Size(j) && TrueFor(t, truth, block, j)
    ensures block.piece == j
  {
  }

  lemma FailsKeeps(t: Torrent, ps: P.Pieces, block: Block, data: Bytes, ps': P.Pieces)
    requires t.Valid() && Fails(t, ps, block, data, ps')
    ensures block.piece in ps.active && block.piece in ps'.active
  {
  }

  lemma PassesOwns(t: Torrent, ps: P.Pieces, block: Block, data: Bytes, ps': P.Pieces)
    requires t.Valid() && Passes(t, ps, block, data, ps')
    ensures block.piece in ps'.have
  {
  }

  lemma ForgottenTrue(t: Torrent, truth: nat -> Bytes, x: State, y: State, j: nat)
    requires t.Valid() && j < t.Count() && |truth(j)| == t.Size(j) && y.h.arrivals == Forgotten(x.h.arrivals, j)
    ensures AllTrue(t, truth, y, j)
  {
  }

  lemma IncompleteFurther(t: Torrent, truth: nat -> Bytes, x: State, y: State, p: nat, block: Block, ps: P.Pieces,
                          j: nat)
    requires t.Valid() && j < t.Count() && |truth(j)| == t.Size(j) && TrueFor(t, truth, block, j)
    requires j in x.s.pieces.active && block.offset / BLOCK_SIZE < |x.s.pieces.active[j].states|
    requires block.offset + |block.data| <= |x.s.pieces.active[j].data|
    requires ps == x.s.pieces.(active := x.s.pieces.active[j := P.Stored(x.s.pieces.active[j], block)])
    requires y.s.pieces.active.Keys == ps.active.Keys && y.s.pieces.active[j].received == ps.active[j].received
    requires y.h.arrivals == Arrived(x.h.arrivals, p, block)
    ensures Further(t, truth, x, y, j)
  {
    if AllTrue(t, truth, x, j) { ArrivedTrue(t, truth, x.h.arrivals, p, block, j); }
  }

  // ----- a whole piece -----

  // the geometry of a request for block b of piece j
  lemma RequestFits(t: Torrent, truth: nat -> Bytes, j: nat, b: nat)
    requires t.Valid() && j < t.Count() && b < t.Blocks(j) && |truth(j)| == t.Size(j)
    ensures var req := t.Request(j, b);
            && req.piece == j && req.offset / BLOCK_SIZE == b && req.offset + req.length <= |truth(j)|
            && req.piece < TWO_32 && req.offset < TWO_32
            && TrueFor(t, truth, TrueBlock(truth, req), j)
  {
  }

  // one block of j is asked for, answered and judged
  lemma Unit(t: Torrent, honest: set<Host>, truth: nat -> Bytes, start: State, p: nat, x: State,
             picked: P.Pieces, j: nat, b: nat) returns (mid: State, y: State)
    requires Reaches(t, honest, truth, start, p, x) && Shaped(t, x.s) && Quiet(x)
    requires t.Valid() && Exact(t, truth) && j < t.Count() && b < t.Blocks(j) && |truth(j)| == t.Size(j)
    requires P.PickStep(t, x.s.pieces, x.s.swarm.conns[p].has, x.s.swarm.frequency, p, picked, Some(t.Request(j, b)))
    ensures Reaches(t, honest, truth, start, p, y) && Shaped(t, y.s) && Quiet(y)
    ensures mid.s.pieces == picked && mid.h.arrivals == x.h.arrivals
    ensures j in y.s.pieces.have || Further(t, truth, mid, y, j)
  {
    hide Inv, HonestInv, Exact, Leads, Shaped, P.PickStep, Dispatch, ArrivalsWith, TrueFor, Further;
    RequestFits(t, truth, j, b);
    var req := t.Request(j, b);
    mid := Answered(t, honest, truth, start, p, x, picked, req);
    y := DispatchOnward(t, honest, truth, start, p, mid);
    var keys := KeySeq(mid.s.swarm.conns);
    VerdictOn(t, truth, mid, _ => keys, y, p, TrueBlock(truth, req), j);
  }

  // p could be asked for j next
  ghost predicate Underway(t: Torrent, x: State, p: nat, j: nat)
  {
    && p in x.s.swarm.conns && j in x.s.swarm.conns[p].has
    && j < t.Count() && j in x.s.pieces.active && j !in x.s.pieces.have
  }

  lemma {:induction false} FirstMissing(states: seq<P.BlockState>, n: nat) returns (b: nat)
    requires n < |states| && states[n] == P.Missing
    ensures P.IsFirstMissing(states, b)
  {
    if forall c :: 0 <= c < n ==> states[c] != P.Missing {
      b := n;
    } else {
      var c :| 0 <= c < n && states[c] == P.Missing;
      b := FirstMissing(states, c);
    }
  }

  // a piece under way always has a block that can be asked for
  lemma NextBlock(t: Torrent, x: State, p: nat, j: nat) returns (b: nat)
    requires Inv(t, x) && Quiet(x) && Underway(t, x, p, j)
    ensures Shaped(t, x.s) && b < t.Blocks(j) && P.Offers(x.s.pieces, x.s.swarm.conns[p].has, p, j)
    ensures P.IsFirstMissing(x.s.pieces.active[j].states, b)
  {
    var states := x.s.pieces.active[j].states;
    P.CountBound(states);
    var n :| 0 <= n < |states| && states[n] != P.Received;
    NoneRequested(t, x, j, n);
    b := FirstMissing(states, n);
  }

  lemma PickUnderway(t: Torrent, x: State, p: nat, j: nat, b: nat)
    requires Shaped(t, x.s) && Underway(t, x, p, j) && b < t.Blocks(j)
    requires P.Offers(x.s.pieces, x.s.swarm.conns[p].has, p, j) && P.IsFirstMissing(x.s.pieces.active[j].states, b)
    ensures P.PickStep(t, x.s.pieces, x.s.swarm.conns[p].has, x.s.swarm.frequency, p,
                       P.Take(x.s.pieces, j, x.s.pieces.active[j], b), Some(t.Request(j, b)))
  {
    assert t.Request(j, b).offset / BLOCK_SIZE == b;
  }

  // an attempt holds fewer blocks than the piece has
  lemma Unfinished(t: Torrent, x: State, p: nat, j: nat)
    requires Inv(t, x) && Underway(t, x, p, j)
    ensures t.Valid() && x.s.pieces.active[j].received < t.Blocks(j)
  {
  }

  lemma StillUnderway(t: Torrent, start: State, x: State, y: State, p: nat, j: nat)
    requires SamePeer(start, x, p) && SamePeer(start, y, p) && Underway(t, x, p, j)
    requires j in y.s.pieces.active && j !in y.s.pieces.have
    ensures Underway(t, y, p, j)
  {
  }

  // The attempt at j is carried on to its end. If all its blocks were true the
  // piece is owned then; otherwise it may have failed, with the record cleared.
  lemma {:induction false} AttemptEnds(t: Torrent, honest: set<Host>, truth: nat -> Bytes, start: State, p: nat,
                                       x: State,
                                       j: nat) returns (y: State)
    requires Reaches(t, honest, truth, start, p, x) && Shaped(t, x.s) && Quiet(x) && Underway(t, x, p, j)
    requires t.Valid() && Exact(t, truth) && |truth(j)| == t.Size(j)
    ensures Reaches(t, honest, truth, start, p, y) && Shaped(t, y.s) && Quiet(y)
    ensures j in y.s.pieces.have || (Underway(t, y, p, j) && AllTrue(t, truth, y, j))
    ensures AllTrue(t, truth, x, j) ==> j in y.s.pieces.have
    decreases t.Blocks(j) - x.s.pieces.active[j].received
  {
    hide Inv, HonestInv, Exact, Leads, Shaped, AllTrue, P.PickStep, Quiet, P.Offers;
    Unfinished(t, x, p, j);
    var b := NextBlock(t, x, p, j);
    PickUnderway(t, x, p, j, b);
    var mid, z := Unit(t, honest, truth, start, p, x, P.Take(x.s.pieces, j, x.s.pieces.active[j], b), j, b);
    SameRecord(t, truth, x, mid, j);
    if j in z.s.pieces.have {
      y := z;
    } else {
      StillUnderway(t, start, x, z, p, j);
      if z.s.pieces.active[j].received == x.s.pieces.active[j].received + 1 {
        Unfinished(t, z, p, j);
        y := AttemptEnds(t, honest, truth, start, p, z, j);
      } else {
        y := z;
      }
    }
  }

  lemma SameRecord(t: Torrent, truth: nat -> Bytes, x: State, y: State, j: nat)
    requires t.Valid() && j < t.Count() && |truth(j)| == t.Size(j) && y.h.arrivals == x.h.arrivals
    ensures AllTrue(t, truth, x, j) <==> AllTrue(t, truth, y, j)
  {
  }

  // At most one more attempt: this one starts from a clear record.
  lemma OwnUnderway(t: Torrent, honest: set<Host>, truth: nat -> Bytes, start: State, p: nat, x: State, j: nat)
      returns (y: State)
    requires Reaches(t, honest, truth, start, p, x) && Shaped(t, x.s) && Quiet(x) && Underway(t, x, p, j)
    requires t.Valid() && Exact(t, truth) && |truth(j)| == t.Size(j)
    ensures Reaches(t, honest, truth, start, p, y) && Shaped(t, y.s) && Quiet(y) && j in y.s.pieces.have
  {
    hide Reaches, Shaped, Exact, AllTrue, Quiet;
    y := AttemptEnds(t, honest, truth, start, p, x, j);
    if j !in y.s.pieces.have {
      y := AttemptEnds(t, honest, truth, start, p, y, j);
    }
  }

  // ----- every wanted piece -----

  lemma ReachesOn(t: Torrent, honest: set<Host>, truth: nat -> Bytes, x: State, p: nat, y: State, z: State)
    requires Reaches(t, honest, truth, x, p, y) && Reaches(t, honest, truth, y, p, z)
    ensures Reaches(t, honest, truth, x, p, z)
  {
    hide Leads, Inv, HonestInv, Exact;
    LeadsOn(t, x, Answering(p, truth), y, z);
  }

  lemma {:induction false} RarestBelow(count: nat, ps: P.Pieces, has: set<nat>, availability: seq<nat>, i: nat, n: nat)
      returns (j: nat)
    requires |availability| == count && i < n <= count && P.Startable(count, ps, has, i)
    ensures P.Startable(count, ps, has, j)
    ensures forall k: nat :: k < n && P.Startable(count, ps, has, k) ==> availability[j] <= availability[k]
    decreases n
  {
    var last := n - 1;
    if exists k: nat :: k < last && P.Startable(count, ps, has, k) {
      var k: nat :| k < last && P.Startable(count, ps, has, k);
      j := RarestBelow(count, ps, has, availability, k, last);
      if P.Startable(count, ps, has, last) && availability[last] < availability[j] {
        j := last;
      }
    } else {
      j := i;
    }
  }

  lemma PickStarts(t: Torrent, s: Session, p: nat, j: nat)
    requires Shaped(t, s) && p in s.swarm.conns && (forall k :: !P.Offers(s.pieces, s.swarm.conns[p].has, p, k))
    requires P.Rarest(t.Count(), s.pieces, s.swarm.conns[p].has, s.swarm.frequency, j)
    ensures 0 < t.Blocks(j)
    ensures P.PickStep(t, s.pieces, s.swarm.conns[p].has, s.swarm.frequency, p,
                       P.Take(s.pieces, j, P.Started(t, j), 0), Some(t.Request(j, 0)))
  {
    assert t.Request(j, 0).offset / BLOCK_SIZE == 0;
  }

  // nothing is on record for a piece that is not under way
  lemma NoRecord(t: Torrent, truth: nat -> Bytes, x: State, j: nat)
    requires Inv(t, x) && t.Valid() && j < t.Count() && |truth(j)| == t.Size(j) && j !in x.s.pieces.active
    ensures AllTrue(t, truth, x, j)
  {
    assert forall b :: (j, b) !in x.h.arrivals;
  }

  lemma ActiveIsWanted(t: Torrent, x: State, j: nat)
    requires Inv(t, x) && j in x.s.pieces.active
    ensures j < t.Count() && j !in x.s.pieces.have
  {
  }

  // start a rarest piece and own it
  lemma OwnStarted(t: Torrent, honest: set<Host>, truth: nat -> Bytes, x: State, p: nat, j: nat) returns (y: State)
    requires Ready(t, honest, truth, x, p) && Shaped(t, x.s) && Quiet(x)
    requires forall k :: !P.Offers(x.s.pieces, x.s.swarm.conns[p].has, p, k)
    requires P.Rarest(t.Count(), x.s.pieces, x.s.swarm.conns[p].has, x.s.swarm.frequency, j)
    ensures Reaches(t, honest, truth, x, p, y) && Shaped(t, y.s) && Quiet(y) && j in y.s.pieces.have
  {
    hide Inv, HonestInv, Exact, Leads, Shaped, AllTrue, P.PickStep, Quiet, P.Offers;
    ReachesHere(t, honest, truth, x, p);
    ExactSize(t, truth, j);
    PickStarts(t, x.s, p, j);
    var mid, z := Unit(t, honest, truth, x, p, x, P.Take(x.s.pieces, j, P.Started(t, j), 0), j, 0);
    if j in z.s.pieces.have {
      y := z;
    } else {
      NoRecord(t, truth, x, j);
      SameRecord(t, truth, x, mid, j);
      y := OwnUnderway(t, honest, truth, x, p, z, j);
    }
  }

  // some piece more is owned
  lemma OwnAnother(t: Torrent, honest: set<Host>, truth: nat -> Bytes, x: State, p: nat, i: nat)
      returns (y: State, j: nat)
    requires Ready(t, honest, truth, x, p) && Shaped(t, x.s) && Quiet(x)
    requires i < t.Count() && i in x.s.swarm.conns[p].has && i !in x.s.pieces.have
    ensures Reaches(t, honest, truth, x, p, y) && Shaped(t, y.s) && Quiet(y)
    ensures j in y.s.pieces.have && j !in x.s.pieces.have && (i in x.s.pieces.active ==> j == i)
  {
    hide Inv, HonestInv, Exact, Leads, Shaped, Quiet;
    var has := x.s.swarm.conns[p].has;
    ReachesHere(t, honest, truth, x, p);
    if i in x.s.pieces.active {
      j := i;
    } else if k :| P.Offers(x.s.pieces, has, p, k) {
      j := k;
    } else {
      ShapedFrequency(t, x.s);
      j := RarestBelow(t.Count(), x.s.pieces, has, x.s.swarm.frequency, i, t.Count());
      y := OwnStarted(t, honest, truth, x, p, j);
      return;
    }
    ActiveIsWanted(t, x, j);
    ExactSize(t, truth, j);
    y := OwnUnderway(t, honest, truth, x, p, x, j);
  }

  lemma ShapedFrequency(t: Torrent, s: Session)
    requires Shaped(t, s)
    ensures |s.swarm.frequency| == t.Count()
  {
  }

  // owned pieces are pieces of the torrent, so there is an end to owning more
  lemma FewerLeft(t: Torrent, x: State, y: State, j: nat)
    requires Shaped(t, x.s) && Shaped(t, y.s) && x.s.pieces.have <= y.s.pieces.have
    requires j in y.s.pieces.have && j !in x.s.pieces.have
    ensures |x.s.pieces.have| < |y.s.pieces.have| <= t.Count()
  {
    P.AllIndices(t.Count(), y.s.pieces.have);
    var more := y.s.pieces.have - {j};
    Availability.SubsetSize(x.s.pieces.have, more);
  }

  lemma {:induction false} OwnPiece(t: Torrent, honest: set<Host>, truth: nat -> Bytes, x: State, p: nat, i: nat)
      returns (y: State)
    requires Ready(t, honest, truth, x, p) && Shaped(t, x.s) && Quiet(x)
    requires i < t.Count() && i in x.s.swarm.conns[p].has
    ensures Reaches(t, honest, truth, x, p, y) && i in y.s.pieces.have
    decreases t.Count() - |x.s.pieces.have|
  {
    hide Inv, HonestInv, Exact, Leads, Shaped, Quiet;
    if i in x.s.pieces.have {
      ReachesHere(t, honest, truth, x, p);
      y := x;
    } else {
      var z, j := OwnAnother(t, honest, truth, x, p, i);
      FewerLeft(t, x, z, j);
      y := OwnPiece(t, honest, truth, z, p, i);
      ReachesOn(t, honest, truth, x, p, z, y);
    }
  }

  // From every state of every run in which a peer that has the piece is connected
  // and unchokes us, its host having been honest so far: our own steps and true
  // answers of this one peer lead to a state in which the piece is owned. So no
  // block stays Requested, and no failed attempt stays in the way, for good.
  lemma WantedPieceCanBeOwned(t: Torrent, honest: set<Host>, truth: nat -> Bytes, xs: seq<State>, acts: seq<Action>,
                              k: nat, p: nat, i: nat) returns (y: State)
    requires t.Valid() && Exact(t, truth) && IsRun(t, xs, acts) && k < |xs|
    requires forall j :: 0 <= j < |acts| ==> Behaves(honest, truth, xs[j], acts[j])
    requires p in xs[k].s.swarm.conns && xs[k].s.swarm.conns[p].host in honest && !xs[k].s.swarm.conns[p].peerChoking
    requires i < t.Count() && i in xs[k].s.swarm.conns[p].has
    ensures Leads(t, xs[k], Answering(p, truth), y) && i in y.s.pieces.have
  {
    hide Inv, HonestInv, Exact, Leads, Shaped, Quiet, Moves, Init, Behaves;
    var x := xs[k];
    RunInv(t, xs, acts, k);
    RunHonest(t, honest, truth, xs, acts, k);
    InvShaped(t, x);
    ReachesHere(t, honest, truth, x, p);
    var z := Settle(t, honest, truth, x, p, x);
    y := OwnPiece(t, honest, truth, z, p, i);
    ReachesOn(t, honest, truth, x, p, z, y);
  }

  // ----- such states are reached -----

  // one piece of one byte, which is 1, and a digest that tells it from all others
  const DIGEST: Bytes -> Bytes := (b: Bytes) => if b == [1] then Availability.ONES else Availability.ZEROS
  const TRUTH: nat -> Bytes := _ => [1]

  lemma TinyExact()
    ensures Availability.Tiny(DIGEST).Valid() && Exact(Availability.Tiny(DIGEST), TRUTH)
  {
    var t := Availability.Tiny(DIGEST);
    assert t.hashes[0] == Availability.ONES;
    assert Availability.ONES[0] != Availability.ZEROS[0];
  }

  lemma UnchokeMoves(sha1: Bytes -> Bytes)
    ensures var c := Availability.GreetedPeer(sha1).(has := {0});
            Moves(Availability.Tiny(sha1), Availability.TinyState(map[0 := c], map[0 := "h"], [], [], 1, 0),
                  Deliver(0, [1]),
                  Availability.TinyState(map[0 := c.(peerChoking := false)], map[0 := "h"], [], [Unchoked(0)], 1, 0))
  {
    hide Shaped;
    var c := Availability.GreetedPeer(sha1).(has := {0});
    Availability.TinyShaped(sha1, map[0 := c], map[0 := "h"], [], [], 1, 0);
    assert map[0 := c][0 := c.(peerChoking := false)] == map[0 := c.(peerChoking := false)];
  }

  // A peer connects, is greeted, announces the only piece and unchokes us; from there
  // the download can be finished.
  lemma DownloadHappens() returns (xs: seq<State>, acts: seq<Action>, y: State)
    ensures var t := Availability.Tiny(DIGEST);
            && IsRun(t, xs, acts) && |xs| == 6
            && xs[0].s.pieces.have == {} && y.s.pieces.have >= {0}
            && Leads(t, xs[5], Answering(0, TRUTH), y)
  {
    hide Greeted, Moves, Init, Availability.TinyInfo, Exact, Leads;
    var t, c := Availability.Tiny(DIGEST), Availability.GreetedPeer(DIGEST);
    var x2 := Availability.TinyState(map[0 := Availability.PEER], map[], [], [Joined(0)], 0, 0);
    var x3 := Availability.TinyState(map[0 := c], map[0 := "h"], [], [], 0, 0);
    var x4 := Availability.TinyState(map[0 := c.(has := {0})], map[0 := "h"], [], [], 1, 0);
    var x5 := Availability.TinyState(map[0 := c.(has := {0}, peerChoking := false)], map[0 := "h"], [],
                                     [Unchoked(0)], 1, 0);
    xs := [Availability.TinyState(map[], map[], [], [], 0, 0),
           Availability.TinyState(map[], map[], ["h"], [], 0, 0), x2, x3, x4, x5];
    acts := [BeginHandshake("h"), FinishHandshake(0, None), DispatchNext(_ => [0]),
             Deliver(0, [4, 0, 0, 0, 0]), Deliver(0, [1])];
    TinyExact();
    Availability.TinyInit(DIGEST);
    Availability.HandshakeMoves(DIGEST);
    Availability.GreetMoves(DIGEST);
    Availability.HaveMoves(DIGEST);
    UnchokeMoves(DIGEST);
    GreetedHost(DIGEST);
    y := WantedPieceCanBeOwned(t, {"h"}, TRUTH, xs, acts, 5, 0, 0);
  }

  lemma GreetedHost(sha1: Bytes -> Bytes)
    ensures Availability.GreetedPeer(sha1).host == "h"
  {
  }
}
