// Bad data is never blamed on a host that only sends good data.
module Honesty {
  import opened Types
  import opened Torrents
  import opened Wire
  import opened Swarms
  import opened Engine
  import opened Invariants
  import opened Membership
  import opened Dispatching
  import opened Arrivals
  import opened Runs
  import P = Pieces
  import B = Bans

  // 'truth' is the one content the hashes accept
  ghost predicate Exact(t: Torrent, truth: nat -> Bytes)
    requires t.Valid()
  {
    && (forall i :: 0 <= i < t.Count() ==> |truth(i)| == t.Size(i) && t.Verify(i, truth(i)))
    && (forall i, d :: 0 <= i < t.Count() && |d| == t.Size(i) && t.Verify(i, d) ==> d == truth(i))
  }

  ghost predicate Genuine(truth: nat -> Bytes, block: Block)
  {
    && block.offset + |block.data| <= |truth(block.piece)|
    && block.data == truth(block.piece)[block.offset..block.offset + |block.data|]
  }

  // an honest host's peers put only genuine blocks into their piece messages
  ghost predicate Behaves(honest: set<Host>, truth: nat -> Bytes, x: State, a: Action)
  {
    a.Deliver? && a.peer in x.s.swarm.conns && x.s.swarm.conns[a.peer].host in honest && |a.msg| >= 9
        && a.msg[0] == MSG_PIECE ==>
      Genuine(truth, BlockOf(a.msg[1..]))
  }

  ghost predicate Trusted(honest: set<Host>, hosts: map<nat, Host>, p: nat)
  {
    p in hosts && hosts[p] in honest
  }

  ghost predicate EventGenuine(honest: set<Host>, truth: nat -> Bytes, hosts: map<nat, Host>, ev: Event)
  {
    ev.PieceArrived? && Trusted(honest, hosts, ev.peer) ==> Genuine(truth, ev.block)
  }

  // the recorded sender is known, and if it is honest the block is genuine
  ghost predicate ArrivalGenuine(t: Torrent, honest: set<Host>, truth: nat -> Bytes, hosts: map<nat, Host>, i: nat,
                                 b: nat, a: Arrival)
    requires t.Valid()
  {
    && a.peer in hosts
    && (hosts[a.peer] in honest && i < t.Count() && b < t.Blocks(i) && |truth(i)| == t.Size(i) ==>
        a.data == t.Slice(i, b, truth(i)))
  }

  ghost predicate EvidenceGenuine(t: Torrent, honest: set<Host>, truth: nat -> Bytes, hosts: map<nat, Host>, i: nat,
                                  ev: B.Evidence)
    requires t.Valid() && EvidenceShaped(t, i, ev)
  {
    forall b :: 0 <= b < |ev.senders| && Trusted(honest, hosts, ev.senders[b]) && |truth(i)| == t.Size(i) ==>
      t.Slice(i, b, ev.data) == t.Slice(i, b, truth(i))
  }

  ghost predicate AllGenuine(t: Torrent, honest: set<Host>, truth: nat -> Bytes, bs: B.Bans)
    requires t.Valid()
  {
    forall i :: i in bs.evidence ==>
      EvidenceShaped(t, i, bs.evidence[i]) && EvidenceGenuine(t, honest, truth, bs.hosts, i, bs.evidence[i])
  }

  ghost predicate QueueGenuine(honest: set<Host>, truth: nat -> Bytes, hosts: map<nat, Host>, q: seq<Event>)
  {
    forall ev :: ev in q ==> EventGenuine(honest, truth, hosts, ev)
  }

  ghost predicate ArrivalsGenuine(t: Torrent, honest: set<Host>, truth: nat -> Bytes, hosts: map<nat, Host>,
                                  arrivals: map<(nat, nat), Arrival>)
    requires t.Valid()
  {
    forall k :: k in arrivals ==> ArrivalGenuine(t, honest, truth, hosts, k.0, k.1, arrivals[k])
  }

  ghost predicate HonestInv(t: Torrent, honest: set<Host>, truth: nat -> Bytes, x: State)
    requires t.Valid()
  {
    && QueueGenuine(honest, truth, x.s.bans.hosts, x.s.queue)
    && ArrivalsGenuine(t, honest, truth, x.s.bans.hosts, x.h.arrivals)
    && AllGenuine(t, honest, truth, x.s.bans)
    && x.s.swarm.banned !! honest
  }

  // ----- steps that say nothing new -----

  lemma NothingNew(t: Torrent, honest: set<Host>, truth: nat -> Bytes, x: State, y: State)
    requires t.Valid() && HonestInv(t, honest, truth, x)
    requires y.s.bans == x.s.bans && y.h.arrivals == x.h.arrivals && y.s.swarm.banned == x.s.swarm.banned
    requires forall ev :: ev in y.s.queue && ev.PieceArrived? ==> ev in x.s.queue
    ensures HonestInv(t, honest, truth, y)
  {
  }

  // the events a message can add
  lemma DeliverEvents(sw: Swarm, q: seq<Event>, p: nat, msg: Bytes)
    ensures var r := HandleMessage(sw, q, p, msg);
            && r.swarm.banned == sw.banned
            && forall ev :: ev in r.queue && ev.PieceArrived? ==>
                 || ev in q
                 || (p in sw.conns && |msg| >= 9 && msg[0] == MSG_PIECE && ev == PieceArrived(p, BlockOf(msg[1..]))
                     && sw.conns[p].pending != [])
  {
    if p in sw.conns && msg != [] && msg[0] == MSG_CANCEL && |msg[1..]| == 12 {
      var k := FindAsked(q, BlockAsked(p, TripleOf(msg[1..])));
      if k < |q| { assert forall ev :: ev in Without(q, k) ==> ev in q; }
    }
  }

  lemma DeliverHonest(t: Torrent, honest: set<Host>, truth: nat -> Bytes, x: State, p: nat, msg: Bytes, y: State)
    requires Inv(t, x) && HonestInv(t, honest, truth, x) && DeliverStep(x, p, msg, y)
    requires Behaves(honest, truth, x, Deliver(p, msg))
    ensures HonestInv(t, honest, truth, y)
  {
    DeliverEvents(x.s.swarm, x.s.queue, p, msg);
    forall ev | ev in y.s.queue && ev !in x.s.queue ensures EventGenuine(honest, truth, x.s.bans.hosts, ev) {
      if ev.PieceArrived? {
        assert ConnOk(t, x.s, DeliveredTo(x.h, p), p, x.s.swarm.conns[p]);
      }
    }
  }

  // ----- newcomers -----

  // naming a new peer's host changes nothing that is on record
  lemma NewHost(t: Torrent, honest: set<Host>, truth: nat -> Bytes, x: State, p: nat, host: Host, q: seq<Event>)
    requires Inv(t, x) && HonestInv(t, honest, truth, x) && p !in x.s.bans.hosts
    requires forall ev :: ev in q ==> ev in x.s.queue
    ensures QueueGenuine(honest, truth, x.s.bans.hosts[p := host], q)
    ensures ArrivalsGenuine(t, honest, truth, x.s.bans.hosts[p := host], x.h.arrivals)
    ensures AllGenuine(t, honest, truth, B.OnJoin(x.s.bans, p, host))
  {
    var hosts := x.s.bans.hosts[p := host];
    forall ev | ev in q ensures EventGenuine(honest, truth, hosts, ev) {
      assert EventGenuine(honest, truth, x.s.bans.hosts, ev);
      var k :| 0 <= k < |x.s.queue| && x.s.queue[k] == ev;
      assert EventOk(x.s.queue[k], x.s.swarm.nextId, x.s.bans.hosts);
    }
    forall k | k in x.h.arrivals ensures ArrivalGenuine(t, honest, truth, hosts, k.0, k.1, x.h.arrivals[k]) {
      assert ArrivalGenuine(t, honest, truth, x.s.bans.hosts, k.0, k.1, x.h.arrivals[k]);
    }
    forall i | i in x.s.bans.evidence ensures EvidenceGenuine(t, honest, truth, hosts, i, x.s.bans.evidence[i]) {
      assert EvidenceGenuine(t, honest, truth, x.s.bans.hosts, i, x.s.bans.evidence[i]);
    }
  }

  // ----- verdicts -----

  // Blocks that all come from honest hosts make up the true piece.
  lemma AllFromHonest(t: Torrent, truth: nat -> Bytes, i: nat, data: Bytes)
    requires t.Valid() && i < t.Count() && |data| == |truth(i)| == t.Size(i)
    requires forall b :: 0 <= b < t.Blocks(i) ==> t.Slice(i, b, data) == t.Slice(i, b, truth(i))
    ensures data == truth(i)
  {
    if data != truth(i) {
      var b := t.DifferInBlock(i, data, truth(i));
    }
  }

  // the slots of a finished attempt, with what each sender sent
  ghost predicate Attempt(t: Torrent, bs: B.Bans, arrivals: map<(nat, nat), Arrival>, i: nat, data: Bytes)
    requires t.Valid()
  {
    && i < t.Count() && |data| == t.Size(i)
    && i in bs.senders && |bs.senders[i]| == t.Blocks(i)
    && forall b :: 0 <= b < t.Blocks(i) ==> SlotOk(t, data, bs, arrivals, i, b)
  }

  // A failed piece is never pinned on an honest sole sender, and the evidence
  // kept of it is right about honest senders.
  lemma FailedHonest(t: Torrent, honest: set<Host>, truth: nat -> Bytes, bs: B.Bans, arrivals: map<(nat, nat),
                     Arrival>, i: nat, data: Bytes,
                     bs': B.Bans, hosts: seq<Host>)
    requires t.Valid() && Exact(t, truth) && Attempt(t, bs, arrivals, i, data) && !t.Verify(i, data)
    requires ArrivalsGenuine(t, honest, truth, bs.hosts, arrivals) && AllGenuine(t, honest, truth, bs)
    requires (bs', hosts) == B.OnPieceFailed(bs, i, data)
    ensures bs'.hosts == bs.hosts && AllGenuine(t, honest, truth, bs') && forall h :: h in hosts ==> h !in honest
  {
    forall b | 0 <= b < t.Blocks(i) && Trusted(honest, bs.hosts, bs.senders[i][b])
      ensures t.Slice(i, b, data) == t.Slice(i, b, truth(i))
    {
      assert SlotOk(t, data, bs, arrivals, i, b);
      assert ArrivalGenuine(t, honest, truth, bs.hosts, i, b, arrivals[(i, b)]);
    }
    if B.SoleSender(bs.senders[i]) && Trusted(honest, bs.hosts, bs.senders[i][0]) {
      AllFromHonest(t, truth, i, data);
    }
  }

  // the block comparison of the verdict is over the slices of the piece
  lemma ChunkIsSlice(t: Torrent, i: nat, b: nat, data: Bytes)
    requires t.Valid() && i < t.Count() && b < t.Blocks(i) && |data| == t.Size(i)
    ensures b * BLOCK_SIZE <= |data| && B.Chunk(data, b) == t.Slice(i, b, data)
  {
  }

  lemma NoHonestMismatch(t: Torrent, honest: set<Host>, truth: nat -> Bytes, hosts: map<nat, Host>, i: nat,
                         ev: B.Evidence, b: nat)
    requires t.Valid() && i < t.Count() && |truth(i)| == t.Size(i) && B.EvidenceFits(ev, truth(i)) && b < |ev.senders|
    requires EvidenceShaped(t, i, ev) && EvidenceGenuine(t, honest, truth, hosts, i, ev)
    requires Trusted(honest, hosts, ev.senders[b])
    ensures !B.Mismatch(ev, truth(i), b)
  {
    hide B.Chunk;
    ChunkIsSlice(t, i, b, ev.data);
    ChunkIsSlice(t, i, b, truth(i));
    assert t.Slice(i, b, ev.data) == t.Slice(i, b, truth(i));
  }

  // A verified piece only incriminates hosts that sent something else.
  lemma VerifiedHonest(t: Torrent, honest: set<Host>, truth: nat -> Bytes, bs: B.Bans, i: nat, data: Bytes)
    requires t.Valid() && Exact(t, truth) && i < t.Count() && |data| == t.Size(i) && t.Verify(i, data)
    requires AllGenuine(t, honest, truth, bs)
    requires i in bs.evidence ==> B.EvidenceFits(bs.evidence[i], data)
    ensures var (bs', hosts) := B.OnPieceVerified(bs, i, data);
            && AllGenuine(t, honest, truth, bs')
            && forall h :: h in hosts ==> h !in honest
  {
    hide B.Mismatch, EvidenceGenuine;
    assert data == truth(i);
    if i in bs.evidence {
      var ev := bs.evidence[i];
      B.BlamedExactly(bs.hosts, ev, data, |ev.senders|);
      forall b | 0 <= b < |ev.senders| && Trusted(honest, bs.hosts, ev.senders[b]) ensures !B.Mismatch(ev, data, b) {
        NoHonestMismatch(t, honest, truth, bs.hosts, i, ev, b);
      }
    }
  }

  lemma ArrivalAdded(t: Torrent, honest: set<Host>, truth: nat -> Bytes, hosts: map<nat, Host>,
                     arrivals: map<(nat, nat), Arrival>, p: nat, block: Block)
    requires t.Valid() && ArrivalsGenuine(t, honest, truth, hosts, arrivals) && p in hosts
    requires EventGenuine(honest, truth, hosts, PieceArrived(p, block))
    requires block.piece < t.Count() && block.offset / BLOCK_SIZE < t.Blocks(block.piece)
    requires t.Request(block.piece, block.offset / BLOCK_SIZE) == P.RequestOf(block)
    ensures ArrivalsGenuine(t, honest, truth, hosts, Arrived(arrivals, p, block))
  {
  }

  // ----- the dispatch of a block -----

  lemma CompletedAttempt(t: Torrent, ps: P.Pieces, bs: B.Bans, arrivals: map<(nat, nat), Arrival>, p: nat,
                         block: Block, data: Bytes, ps': P.Pieces)
    requires t.Valid() && Expected(t, ps, bs, arrivals, p, block) && Completes(t, ps, block, data, ps')
    ensures Attempt(t, B.OnBlock(bs, p, block), Arrived(arrivals, p, block), block.piece, data)
  {
    FullSlots(t, ps, bs, arrivals, p, block);
  }

  // what filing a block does to the bans, by outcome
  lemma FilePieceBans(t: Torrent, s: Session, p: nat, block: Block)
    requires Shaped(t, s)
    ensures var (s1, hosts) := FilePiece(t, s, p, block);
            var bs := B.OnBlock(s.bans, p, block);
            match P.OnBlock(t, s.pieces, block).1
            case Rejected => hosts == []
            case Incomplete => s1.bans == bs && hosts == []
            case PieceFailed(i, data) => (s1.bans, hosts) == B.OnPieceFailed(bs, i, data)
            case PieceVerified(i, data) =>
              (i in bs.evidence ==> B.EvidenceFits(bs.evidence[i], data))
                  && (s1.bans, hosts) == B.OnPieceVerified(bs, i, data)
  {
  }

  lemma OnBlockGenuine(t: Torrent, honest: set<Host>, truth: nat -> Bytes, bs: B.Bans, p: nat, block: Block)
    requires t.Valid() && AllGenuine(t, honest, truth, bs)
    ensures AllGenuine(t, honest, truth, B.OnBlock(bs, p, block))
  {
  }

  lemma VerdictHonest(t: Torrent, honest: set<Host>, truth: nat -> Bytes, s: Session, arrivals: map<(nat, nat),
                      Arrival>, p: nat, block: Block)
    requires Shaped(t, s) && Exact(t, truth) && Expected(t, s.pieces, s.bans, arrivals, p, block)
    requires ArrivalsGenuine(t, honest, truth, s.bans.hosts, Arrived(arrivals, p, block))
    requires AllGenuine(t, honest, truth, s.bans)
    ensures var (s1, hosts) := FilePiece(t, s, p, block);
            s1.bans.hosts == s.bans.hosts && AllGenuine(t, honest, truth, s1.bans) && forall h :: h in hosts ==>
                h !in honest
  {
    OnBlockOutcome(t, s.pieces, block);
    FilePieceBans(t, s, p, block);
    OnBlockGenuine(t, honest, truth, s.bans, p, block);
    var (ps', res) := P.OnBlock(t, s.pieces, block);
    var (s1, hosts) := FilePiece(t, s, p, block);
    var bs := B.OnBlock(s.bans, p, block);
    match res
    case Incomplete =>
    case PieceFailed(_, data) =>
      CompletedAttempt(t, s.pieces, s.bans, arrivals, p, block, data, ps');
      FailedHonest(t, honest, truth, bs, Arrived(arrivals, p, block), block.piece, data, s1.bans, hosts);
    case PieceVerified(_, data) =>
      VerifiedHonest(t, honest, truth, bs, block.piece, data);
  }

  // whatever the verdict, the record keeps only what was there or has just arrived
  lemma RecordGenuine(t: Torrent, honest: set<Host>, truth: nat -> Bytes, hosts: map<nat, Host>, ps: P.Pieces,
                      arrivals: map<(nat, nat), Arrival>, p: nat, block: Block)
    requires t.Valid() && ArrivalsGenuine(t, honest, truth, hosts, arrivals)
    requires ArrivalsGenuine(t, honest, truth, hosts, Arrived(arrivals, p, block))
    ensures ArrivalsGenuine(t, honest, truth, hosts, ArrivalsWith(t, ps, arrivals, p, block))
  {
    hide P.OnBlock, ArrivalGenuine;
  }

  lemma FilePieceHonest(t: Torrent, honest: set<Host>, truth: nat -> Bytes, x: State, p: nat, block: Block)
    requires Inv(t, x) && HonestInv(t, honest, truth, x) && Exact(t, truth)
    requires x.s.queue != [] && x.s.queue[0] == PieceArrived(p, block)
    ensures var (s1, hosts) := FilePiece(t, x.s.(queue := x.s.queue[1..]), p, block);
            && s1.bans.hosts == x.s.bans.hosts
            && ArrivalsGenuine(t, honest, truth, x.s.bans.hosts, ArrivalsWith(t, x.s.pieces, x.h.arrivals, p, block))
            && AllGenuine(t, honest, truth, s1.bans)
            && forall h :: h in hosts ==> h !in honest
  {
    hide FilePiece, P.Wf, AllGenuine, ArrivalsWith, ArrivalsGenuine;
    ArrivalExpected(t, x);
    P.ArrivalAccepted(t, x.s.pieces, block);
    assert EventGenuine(honest, truth, x.s.bans.hosts, x.s.queue[0]);
    ArrivalAdded(t, honest, truth, x.s.bans.hosts, x.h.arrivals, p, block);
    RecordGenuine(t, honest, truth, x.s.bans.hosts, x.s.pieces, x.h.arrivals, p, block);
    VerdictHonest(t, honest, truth, x.s.(queue := x.s.queue[1..]), x.h.arrivals, p, block);
  }

  lemma {:induction false} BansTouch(s: Session, hosts: seq<Host>, order: Host -> seq<nat>)
    ensures var s' := BanHosts(s, hosts, order);
            && s'.bans == s.bans && s'.queue == s.queue
            && forall h :: h in s'.swarm.banned <==> h in s.swarm.banned || h in hosts
    decreases |hosts|
  {
    if hosts == [] {
    } else {
      BanTouches(s.swarm, hosts[0], order(hosts[0]));
      BansTouch(BanHost(s, hosts[0], order(hosts[0])), hosts[1..], order);
    }
  }

  lemma BanTouches(sw: Swarm, host: Host, order: seq<nat>)
    ensures Ban(sw, host, order).0.banned == sw.banned + {host}
  {
    DropHostKeepsBanned(sw.(banned := sw.banned + {host}), host, order);
  }

  lemma ArrivedHonest(t: Torrent, honest: set<Host>, truth: nat -> Bytes, x: State, order: Host -> seq<nat>, y: State)
    requires Inv(t, x) && HonestInv(t, honest, truth, x) && Exact(t, truth)
    requires DispatchStep(t, x, order, y) && x.s.queue[0].PieceArrived?
    ensures HonestInv(t, honest, truth, y)
  {
    var p, block := x.s.queue[0].peer, x.s.queue[0].block;
    var (s1, hosts) := FilePiece(t, x.s.(queue := x.s.queue[1..]), p, block);
    FilePieceHonest(t, honest, truth, x, p, block);
    FilePieceKeeps(t, x.s.(queue := x.s.queue[1..]), p, block);
    FilePieceQueue(t, x.s.(queue := x.s.queue[1..]), p, block);
    BansTouch(s1, hosts, order);
  }

  lemma FilePieceQueue(t: Torrent, s: Session, p: nat, block: Block)
    requires Shaped(t, s)
    ensures FilePiece(t, s, p, block).0.queue == s.queue
  {
  }

  lemma JoinedHonest(t: Torrent, honest: set<Host>, truth: nat -> Bytes, x: State, p: nat, y: State)
    requires Inv(t, x) && HonestInv(t, honest, truth, x) && x.s.queue != [] && x.s.queue[0] == Joined(p)
    requires y == x.(s := OnJoined(t, x.s.(queue := x.s.queue[1..]), p))
    ensures HonestInv(t, honest, truth, y)
  {
    if p in x.s.swarm.conns {
      assert EventOk(x.s.queue[0], x.s.swarm.nextId, x.s.bans.hosts);
      OnJoinedIs(t, x, p);
      NewHost(t, honest, truth, x, p, x.s.swarm.conns[p].host, x.s.queue[1..]);
    }
  }

  lemma DispatchHonest(t: Torrent, honest: set<Host>, truth: nat -> Bytes, x: State, order: Host -> seq<nat>, y: State)
    requires Inv(t, x) && HonestInv(t, honest, truth, x) && Exact(t, truth) && DispatchStep(t, x, order, y)
    ensures HonestInv(t, honest, truth, y)
  {
    hide HonestInv, Exact;
    match x.s.queue[0]
    case Joined(p) => JoinedHonest(t, honest, truth, x, p, y);
    case PieceArrived(_, _) => ArrivedHonest(t, honest, truth, x, order, y);
    case _ => NothingNew(t, honest, truth, x, y);
  }

  lemma NextHonest(t: Torrent, honest: set<Host>, truth: nat -> Bytes, x: State, a: Action, y: State)
    requires Inv(t, x) && HonestInv(t, honest, truth, x) && Exact(t, truth) && Next(t, x, a, y)
    requires Behaves(honest, truth, x, a)
    ensures HonestInv(t, honest, truth, y)
  {
    match a
    case Deliver(p, msg) => DeliverHonest(t, honest, truth, x, p, msg, y);
    case DispatchNext(order) => DispatchHonest(t, honest, truth, x, order, y);
    case _ =>
      OtherSteps(t, x, a, y);
      NothingNew(t, honest, truth, x, y);
  }

  lemma OtherSteps(t: Torrent, x: State, a: Action, y: State)
    requires Shaped(t, x.s) && Next(t, x, a, y) && !a.Deliver? && !a.DispatchNext?
    ensures y.s.bans == x.s.bans && y.h.arrivals == x.h.arrivals && y.s.swarm.banned == x.s.swarm.banned
    ensures forall ev :: ev in y.s.queue && ev.PieceArrived? ==> ev in x.s.queue
  {
  }

  // ----- the theorem -----

  // No run bans a host whose peers only ever send genuine blocks, however many
  // other hosts misbehave.
  lemma HonestNeverBanned(t: Torrent, honest: set<Host>, truth: nat -> Bytes, xs: seq<State>, acts: seq<Action>, k: nat)
    requires IsRun(t, xs, acts) && k < |xs| && t.Valid() && Exact(t, truth)
    requires forall j :: 0 <= j < |acts| ==> Behaves(honest, truth, xs[j], acts[j])
    ensures xs[k].s.swarm.banned !! honest
  {
    RunHonest(t, honest, truth, xs, acts, k);
  }

  lemma {:induction false} RunHonest(t: Torrent, honest: set<Host>, truth: nat -> Bytes, xs: seq<State>,
                                     acts: seq<Action>, k: nat)
    requires IsRun(t, xs, acts) && k < |xs| && t.Valid() && Exact(t, truth)
    requires forall j :: 0 <= j < |acts| ==> Behaves(honest, truth, xs[j], acts[j])
    ensures HonestInv(t, honest, truth, xs[k])
  {
    if k == 0 {
    } else {
      RunHonest(t, honest, truth, xs, acts, k - 1);
      RunInv(t, xs, acts, k - 1);
      assert Moves(t, xs[k - 1], acts[k - 1], xs[k - 1 + 1]);
      NextHonest(t, honest, truth, xs[k - 1], acts[k - 1], xs[k]);
    }
  }
}
