// Dispatching an arrived block: it is always accepted, its sender is recorded,
// and a piece it completes is judged, stored and announced.
module Arrivals {
  import opened Types
  import opened Torrents
  import opened Wire
  import opened Swarms
  import opened Engine
  import opened Invariants
  import opened Delivery
  import opened Membership
  import opened Dispatching
  import Outboxes
  import P = Pieces
  import B = Bans

  // ----- the request is used up -----

  lemma ArrivalExpected(t: Torrent, x: State)
    requires Inv(t, x) && x.s.queue != [] && x.s.queue[0].PieceArrived?
    ensures P.IsRequested(t, x.s.pieces, P.RequestOf(x.s.queue[0].block))
    ensures x.s.queue[0].peer in x.s.bans.hosts
  {
    var r := P.RequestOf(x.s.queue[0].block);
    assert QueueHolds(x.s.queue, r) >= 1;
    assert InFlight(x.s.swarm.conns, x.s.swarm.nextId, r) + QueueHolds(x.s.queue, r) ==
           (if P.IsRequested(t, x.s.pieces, r) then 1 else 0);
    assert EventOk(x.s.queue[0], x.s.swarm.nextId, x.s.bans.hosts);
  }

  lemma ConservedArrival(t: Torrent, ps: P.Pieces, conns: map<nat, Conn>, n: nat, q: seq<Event>, block: Block,
                         ps': P.Pieces)
    requires t.Valid() && P.Wf(t, ps) && Conserved(t, ps, conns, n, q)
    requires q != [] && q[0].PieceArrived? && q[0].block == block && P.IsRequested(t, ps, P.RequestOf(block))
    requires ps' == P.OnBlock(t, ps, block).0
    ensures P.Wf(t, ps') && Conserved(t, ps', conns, n, q[1..])
  {
    P.ArrivalAccepted(t, ps, block);
    forall r ensures InFlight(conns, n, r) + QueueHolds(q[1..], r) == (if P.IsRequested(t, ps', r) then 1 else 0) {
      assert InFlight(conns, n, r) + QueueHolds(q, r) == (if P.IsRequested(t, ps, r) then 1 else 0);
    }
  }

  // ----- the sender is recorded -----

  ghost predicate Expected(t: Torrent, ps: P.Pieces, bs: B.Bans, arrivals: map<(nat, nat), Arrival>, p: nat,
                           block: Block)
    requires t.Valid()
  {
    && P.Wf(t, ps)
    && Attributed(t, ps, bs, arrivals)
    && P.IsRequested(t, ps, P.RequestOf(block))
    && p in bs.hosts
  }

  // every received block of the piece, the new one included, is attributed
  lemma StoreSlot(t: Torrent, ps: P.Pieces, bs: B.Bans, arrivals: map<(nat, nat), Arrival>, p: nat, block: Block,
                  c: nat)
    requires t.Valid() && Expected(t, ps, bs, arrivals, p, block)
    requires c < t.Blocks(block.piece) && P.Stored(ps.active[block.piece], block).states[c] == P.Received
    ensures SlotOk(t, P.Stored(ps.active[block.piece], block).data, B.OnBlock(bs, p, block),
                   Arrived(arrivals, p, block), block.piece, c)
  {
    var i, b := block.piece, block.offset / BLOCK_SIZE;
    P.ArrivalAccepted(t, ps, block);
    P.StoredSlices(t, i, ps.active[i], block, c);
    if c != b {
      assert SlotOk(t, ps.active[i].data, bs, arrivals, i, c);
    }
  }

  lemma SlotCount(t: Torrent, ps: P.Pieces, bs: B.Bans, arrivals: map<(nat, nat), Arrival>, p: nat, block: Block)
    requires t.Valid() && Expected(t, ps, bs, arrivals, p, block)
    ensures block.offset / BLOCK_SIZE < t.Blocks(block.piece)
    ensures |B.OnBlock(bs, p, block).senders[block.piece]| <= t.Blocks(block.piece)
  {
    P.ArrivalAccepted(t, ps, block);
  }

  lemma IncompleteAttributed(t: Torrent, ps: P.Pieces, bs: B.Bans, arrivals: map<(nat, nat), Arrival>, p: nat,
                             block: Block, ps': P.Pieces)
    requires t.Valid() && Expected(t, ps, bs, arrivals, p, block) && P.Wf(t, ps')
    requires ps' == ps.(active := ps.active[block.piece := P.Stored(ps.active[block.piece], block)])
    ensures Attributed(t, ps', B.OnBlock(bs, p, block), Arrived(arrivals, p, block))
  {
    var i := block.piece;
    SlotCount(t, ps, bs, arrivals, p, block);
    forall j, c | j in ps'.active && 0 <= c < |ps'.active[j].states| && ps'.active[j].states[c] == P.Received
      ensures SlotOk(t, ps'.active[j].data, B.OnBlock(bs, p, block), Arrived(arrivals, p, block), j, c)
    {
      if j == i {
        StoreSlot(t, ps, bs, arrivals, p, block, c);
      } else {
        assert SlotOk(t, ps.active[j].data, bs, arrivals, j, c);
      }
    }
    ArrivedHeld(ps, arrivals, p, block, ps');
  }

  // the record names received blocks only, the new one included
  lemma ArrivedHeld(ps: P.Pieces, arrivals: map<(nat, nat), Arrival>, p: nat, block: Block, ps': P.Pieces)
    requires block.piece in ps.active && block.offset / BLOCK_SIZE < |ps.active[block.piece].states|
    requires block.offset + |block.data| <= |ps.active[block.piece].data|
    requires ps' == ps.(active := ps.active[block.piece := P.Stored(ps.active[block.piece], block)])
    requires forall i, b :: (i, b) in arrivals ==> Holds(ps, i, b)
    ensures forall i, b :: (i, b) in Arrived(arrivals, p, block) ==> Holds(ps', i, b)
  {
    forall i, b | (i, b) in Arrived(arrivals, p, block) ensures Holds(ps', i, b) {
      if (i, b) in arrivals { assert Holds(ps, i, b); }
    }
  }

  // the attempt at the piece is over: no received blocks, no senders
  lemma OverAttributed(t: Torrent, ps: P.Pieces, bs: B.Bans, arrivals: map<(nat, nat), Arrival>, block: Block,
                       ps': P.Pieces, bs': B.Bans)
    requires t.Valid() && P.Wf(t, ps) && P.Wf(t, ps') && Attributed(t, ps, bs, arrivals)
    requires SameOutside(ps, ps', block.piece)
    requires block.piece in ps'.active ==> forall c :: 0 <= c < |ps'.active[block.piece].states| ==>
             ps'.active[block.piece].states[c] != P.Received
    requires bs'.senders == bs.senders - {block.piece} && bs'.hosts == bs.hosts
    ensures Attributed(t, ps', bs', Forgotten(arrivals, block.piece))
  {
    forall j, c | j in ps'.active && 0 <= c < |ps'.active[j].states| && ps'.active[j].states[c] == P.Received
      ensures SlotOk(t, ps'.active[j].data, bs', Forgotten(arrivals, block.piece), j, c)
    {
      assert SlotOk(t, ps.active[j].data, bs, arrivals, j, c);
    }
    forall j, c | (j, c) in Forgotten(arrivals, block.piece) ensures Holds(ps', j, c) {
      assert (j, c) in arrivals;
    }
  }

  // When the last block is in, every slot has been written, by a known peer.
  lemma FullSlots(t: Torrent, ps: P.Pieces, bs: B.Bans, arrivals: map<(nat, nat), Arrival>, p: nat, block: Block)
    requires t.Valid() && Expected(t, ps, bs, arrivals, p, block)
    requires P.Stored(ps.active[block.piece], block).received == |ps.active[block.piece].states|
    ensures var bs' := B.OnBlock(bs, p, block);
            && |bs'.senders[block.piece]| == t.Blocks(block.piece)
            && forall c :: 0 <= c < t.Blocks(block.piece) ==>
                 SlotOk(t, P.Stored(ps.active[block.piece], block).data, bs', Arrived(arrivals, p, block), block.piece,
                        c)
  {
    var i := block.piece;
    var pp := P.Stored(ps.active[i], block);
    SlotCount(t, ps, bs, arrivals, p, block);
    P.CountUpdate(ps.active[i].states, block.offset / BLOCK_SIZE, P.Received);
    P.CountBound(pp.states);
    var bs' := B.OnBlock(bs, p, block);
    forall c | 0 <= c < t.Blocks(i) ensures SlotOk(t, pp.data, bs', Arrived(arrivals, p, block), i, c) {
      assert pp.states[c] == P.Received;
      StoreSlot(t, ps, bs, arrivals, p, block, c);
    }
    assert SlotOk(t, pp.data, bs', Arrived(arrivals, p, block), i, t.Blocks(i) - 1);
  }

  // ----- the three outcomes -----

  ghost predicate SameOutside(ps: P.Pieces, ps': P.Pieces, i: nat)
  {
    && (forall j :: j in ps'.active && j != i ==> j in ps.active && ps'.active[j] == ps.active[j])
    && (forall j :: j in ps.active && j != i ==> j in ps'.active)
  }

  // the block completed the piece, whose bytes are now 'data'
  ghost predicate Completes(t: Torrent, ps: P.Pieces, block: Block, data: Bytes, ps': P.Pieces)
    requires t.Valid()
  {
    var i := block.piece;
    && i < t.Count() && i !in ps.have && i in ps.active
    && |data| == t.Size(i)
    && block.offset / BLOCK_SIZE < |ps.active[i].states| && block.offset + |block.data| <= |ps.active[i].data|
    && data == P.Stored(ps.active[i], block).data
    && P.Stored(ps.active[i], block).received == |ps.active[i].states|
    && SameOutside(ps, ps', i)
  }

  ghost predicate Fails(t: Torrent, ps: P.Pieces, block: Block, data: Bytes, ps': P.Pieces)
    requires t.Valid()
  {
    var i := block.piece;
    && Completes(t, ps, block, data, ps')
    && !t.Verify(i, data)
    && ps'.have == ps.have && ps'.haveCount == ps.haveCount
    && i in ps'.active && ps'.active[i].owner == ps.active[i].owner
    && (forall c :: 0 <= c < |ps'.active[i].states| ==> ps'.active[i].states[c] == P.Missing)
  }

  ghost predicate Passes(t: Torrent, ps: P.Pieces, block: Block, data: Bytes, ps': P.Pieces)
    requires t.Valid()
  {
    var i := block.piece;
    && Completes(t, ps, block, data, ps')
    && t.Verify(i, data)
    && ps'.have == ps.have + {i} && i !in ps'.active
  }

  lemma OnBlockOutcome(t: Torrent, ps: P.Pieces, block: Block)
    requires t.Valid() && P.Wf(t, ps) && P.IsRequested(t, ps, P.RequestOf(block))
    ensures var (ps', res) := P.OnBlock(t, ps, block);
            match res
            case Rejected => false
            case Incomplete => block.offset / BLOCK_SIZE < |ps.active[block.piece].states|
                               && block.offset + |block.data| <= |ps.active[block.piece].data|
                               && ps' == ps.(active := ps.active[block.piece := P.Stored(ps.active[block.piece],
                                    block)])
            case PieceFailed(i, data) => i == block.piece && Fails(t, ps, block, data, ps')
            case PieceVerified(i, data) => i == block.piece && Passes(t, ps, block, data, ps')
  {
    P.ArrivalAccepted(t, ps, block);
  }

  // y is x after its first event, up to the pieces, bans, disk and connections
  ghost predicate Files(x: State, p: nat, block: Block, y: State)
  {
    && x.s.queue != [] && x.s.queue[0] == PieceArrived(p, block)
    && y.s == x.s.(queue := x.s.queue[1..], pieces := y.s.pieces, bans := y.s.bans, disk := y.s.disk,
                   swarm := y.s.swarm)
    && y.h == x.h.(arrivals := y.h.arrivals)
  }

  // what is known of x and the new pieces before the outcome is looked at
  ghost predicate Filed(t: Torrent, x: State, p: nat, block: Block, y: State)
  {
    && Global(t, x)
    && Files(x, p, block, y)
    && Expected(t, x.s.pieces, x.s.bans, x.h.arrivals, p, block)
    && P.Wf(t, y.s.pieces)
    && Conserved(t, y.s.pieces, x.s.swarm.conns, x.s.swarm.nextId, y.s.queue)
    && QueueOk(y.s.queue, x.s.swarm.nextId, x.s.bans.hosts)
    && (forall j :: Joined(j) !in x.s.queue && Joined(j) !in y.s.queue)
  }

  lemma FiledOk(t: Torrent, x: State, p: nat, block: Block, y: State)
    requires Inv(t, x) && Files(x, p, block, y) && y.s.pieces == P.OnBlock(t, x.s.pieces, block).0
    ensures Filed(t, x, p, block, y)
  {
    ArrivalExpected(t, x);
    TailOk(x.s.queue, x.s.swarm.nextId, x.s.bans.hosts);
    ConservedArrival(t, x.s.pieces, x.s.swarm.conns, x.s.swarm.nextId, x.s.queue, block, y.s.pieces);
  }

  lemma SameConns(t: Torrent, x: State, y: State)
    requires t.Valid() && |x.s.disk| == t.totalLength && Conns(t, x)
    requires y.s.swarm == x.s.swarm && y.h.delivered == x.h.delivered
    requires y.s.disk == x.s.disk && y.s.pieces.have == x.s.pieces.have && y.s.bans.hosts == x.s.bans.hosts
    requires y.s.clock == x.s.clock
    requires forall j :: Joined(j) !in x.s.queue && Joined(j) !in y.s.queue
    ensures Conns(t, y)
  {
    forall j | j in y.s.swarm.conns ensures ConnOk(t, y.s, DeliveredTo(y.h, j), j, y.s.swarm.conns[j]) {
      ConnCarries(t, x.s, y.s, DeliveredTo(x.h, j), j, x.s.swarm.conns[j]);
    }
  }

  lemma IncompleteHoldings(t: Torrent, x: State, p: nat, block: Block, y: State)
    requires Filed(t, x, p, block, y) && Books(t, y)
    requires block.offset / BLOCK_SIZE < |x.s.pieces.active[block.piece].states|
    requires block.offset + |block.data| <= |x.s.pieces.active[block.piece].data|
    requires y.s.pieces ==
             x.s.pieces.(active := x.s.pieces.active[block.piece := P.Stored(x.s.pieces.active[block.piece], block)])
    requires y.s.bans == B.OnBlock(x.s.bans, p, block) && y.s.disk == x.s.disk && y.s.swarm == x.s.swarm
    requires y.h.arrivals == Arrived(x.h.arrivals, p, block)
    ensures Holdings(t, y)
  {
    IncompleteAttributed(t, x.s.pieces, x.s.bans, x.h.arrivals, p, block, y.s.pieces);
  }

  // as long as neither connections nor the shape of the evidence change
  lemma FiledBooks(t: Torrent, x: State, p: nat, block: Block, y: State)
    requires Filed(t, x, p, block, y) && y.s.swarm == x.s.swarm && y.s.disk == x.s.disk
    requires y.s.bans.hosts == x.s.bans.hosts
    requires forall i :: i in y.s.bans.evidence ==> EvidenceShaped(t, i, y.s.bans.evidence[i])
    ensures Books(t, y)
  {
  }

  // the bans after a failed attempt: maybe new evidence, no senders left
  lemma FailedEvidence(t: Torrent, ps: P.Pieces, bs: B.Bans, arrivals: map<(nat, nat), Arrival>, p: nat, block: Block,
                       data: Bytes, ps': P.Pieces, bs': B.Bans)
    requires t.Valid() && Expected(t, ps, bs, arrivals, p, block) && EvidenceOk(t, ps.have, bs)
    requires Fails(t, ps, block, data, ps')
    requires bs' == B.OnPieceFailed(B.OnBlock(bs, p, block), block.piece, data).0
    ensures EvidenceOk(t, ps.have, bs')
  {
    hide P.Wf;
    var i := block.piece;
    FullSlots(t, ps, bs, arrivals, p, block);
    var bs1 := B.OnBlock(bs, p, block);
    forall b | 0 <= b < |bs1.senders[i]| ensures bs1.senders[i][b] in bs.hosts {
      assert SlotOk(t, data, bs1, Arrived(arrivals, p, block), i, b);
    }
    assert forall j :: j in bs'.evidence && j !in bs.evidence ==>
        j == i && bs'.evidence[j] == B.Evidence(data, bs1.senders[i]);
  }

  lemma FailedSenders(bs: B.Bans, p: nat, block: Block, data: Bytes)
    ensures var bs' := B.OnPieceFailed(B.OnBlock(bs, p, block), block.piece, data).0;
            bs'.senders == bs.senders - {block.piece} && bs'.hosts == bs.hosts
  {
  }

  lemma FailedHoldings(t: Torrent, x: State, p: nat, block: Block, data: Bytes, y: State)
    requires Shaped(t, x.s) && Holdings(t, x) && Files(x, p, block, y) && Shaped(t, y.s)
    requires Fails(t, x.s.pieces, block, data, y.s.pieces)
    requires y.s.bans == B.OnPieceFailed(B.OnBlock(x.s.bans, p, block), block.piece, data).0
    requires y.s.disk == x.s.disk && y.s.swarm == x.s.swarm && EvidenceOk(t, y.s.pieces.have, y.s.bans)
    requires y.h.arrivals == Forgotten(x.h.arrivals, block.piece)
    ensures Holdings(t, y)
  {
    FailedSenders(x.s.bans, p, block, data);
    OverAttributed(t, x.s.pieces, x.s.bans, x.h.arrivals, block, y.s.pieces, y.s.bans);
  }

  // ----- a verified piece -----

  // the bans after a verified piece: its evidence and senders are gone
  lemma VerifiedBans(t: Torrent, have: set<nat>, bs: B.Bans, p: nat, block: Block, data: Bytes, bs': B.Bans)
    requires t.Valid() && EvidenceOk(t, have, bs)
    requires block.piece in bs.evidence ==> B.EvidenceFits(bs.evidence[block.piece], data)
    requires bs' == B.OnPieceVerified(B.OnBlock(bs, p, block), block.piece, data).0
    ensures EvidenceOk(t, have + {block.piece}, bs')
    ensures bs'.senders == bs.senders - {block.piece} && bs'.hosts == bs.hosts
  {
    assert B.OnBlock(bs, p, block).senders - {block.piece} == bs.senders - {block.piece};
  }

  lemma VerifiedDisk(t: Torrent, have: set<nat>, disk: Bytes, i: nat, data: Bytes)
    requires t.Valid() && |disk| == t.totalLength && i < t.Count() && |data| == t.Size(i)
    requires DiskOk(t, have, disk) && i !in have && t.Verify(i, data)
    ensures |Splice(disk, t.Offset(i), data)| == |disk|
    ensures DiskOk(t, have + {i}, Splice(disk, t.Offset(i), data))
  {
    forall j | j in have + {i} ensures j < t.Count() && t.Verify(j, t.PieceOf(Splice(disk, t.Offset(i), data), j)) {
      t.WriteElsewhere(disk, i, data, j);
    }
  }

  lemma StillServed(t: Torrent, have: set<nat>, disk: Bytes, i: nat, data: Bytes, m: Msg)
    requires t.Valid() && |disk| == t.totalLength && i < t.Count() && |data| == t.Size(i) && i !in have
    requires ServedOk(t, have, disk, m)
    ensures ServedOk(t, have + {i}, Splice(disk, t.Offset(i), data), m)
  {
    if m.PieceMsg? {
      t.WriteElsewhere(disk, i, data, m.piece);
    }
  }

  // A newly owned piece is announced once, on top of what was announced before.
  lemma AnnounceConn(t: Torrent, s: Session, s': Session, d: seq<Msg>, p: nat, c: Conn, i: nat, data: Bytes)
    requires t.Valid() && |s.disk| == t.totalLength && i < t.Count() && |data| == t.Size(i) && i !in s.pieces.have
    requires ConnOk(t, s, d, p, c) && Joined(p) !in s.queue && Joined(p) !in s'.queue
    requires s'.disk == Splice(s.disk, t.Offset(i), data) && s'.pieces.have == s.pieces.have + {i}
    requires s'.bans.hosts == s.bans.hosts && s'.clock == s.clock
    requires s'.swarm.nextId == s.swarm.nextId && s'.swarm.banned == s.swarm.banned
    ensures ConnOk(t, s', d, p, Enqueued(c, Have(i)))
  {
    Outboxes.EnqueueWf(c.out, Have(i));
    ScanAppend(d + c.out.buffer, Have(i), t.Count());
    assert d + (c.out.buffer + [Have(i)]) == d + c.out.buffer + [Have(i)];
    forall m | m in d + c.out.buffer + [Have(i)] ensures ServedOk(t, s'.pieces.have, s'.disk, m) {
      if m in d + c.out.buffer {
        StillServed(t, s.pieces.have, s.disk, i, data, m);
      }
    }
  }

  lemma AnnounceSums(sw: Swarm, i: nat, leaked: seq<nat>)
    requires FrequencyOk(sw.conns, sw.frequency, leaked)
    ensures var sw' := BroadcastHave(sw, i);
            && FrequencyOk(sw'.conns, sw'.frequency, leaked)
            && (forall r :: InFlight(sw'.conns, sw'.nextId, r) == InFlight(sw.conns, sw.nextId, r))
            && |sw'.conns| == |sw.conns|
  {
    var sw' := BroadcastHave(sw, i);
    assert sw'.conns.Keys == sw.conns.Keys;
    forall r ensures InFlight(sw'.conns, sw'.nextId, r) == InFlight(sw.conns, sw.nextId, r) {
      InFlightSame(sw.conns, sw'.conns, sw.nextId, r);
    }
    FrequencySame(sw.conns, sw'.conns, sw.frequency, leaked);
  }

  lemma ConservedSums(t: Torrent, ps: P.Pieces, conns: map<nat, Conn>, conns': map<nat, Conn>, n: nat, q: seq<Event>)
    requires t.Valid() && P.Wf(t, ps) && Conserved(t, ps, conns, n, q)
    requires forall r :: InFlight(conns', n, r) == InFlight(conns, n, r)
    ensures Conserved(t, ps, conns', n, q)
  {
    forall r ensures InFlight(conns', n, r) + QueueHolds(q, r) == (if P.IsRequested(t, ps, r) then 1 else 0) {
      assert InFlight(conns, n, r) + QueueHolds(q, r) == (if P.IsRequested(t, ps, r) then 1 else 0);
    }
  }

  // what filing a block that completes a good piece does to the rest
  ghost predicate Stores(t: Torrent, x: State, p: nat, block: Block, data: Bytes, y: State)
    requires t.Valid() && |x.s.disk| == t.totalLength && block.piece < t.Count() && |data| == t.Size(block.piece)
  {
    var i := block.piece;
    && (i in x.s.bans.evidence ==> B.EvidenceFits(x.s.bans.evidence[i], data))
    && y.s.bans == B.OnPieceVerified(B.OnBlock(x.s.bans, p, block), i, data).0
    && y.s.disk == Splice(x.s.disk, t.Offset(i), data)
    && y.s.swarm == BroadcastHave(x.s.swarm, i)
  }

  lemma NotCompleteYet(t: Torrent, ps: P.Pieces, i: nat)
    requires t.Valid() && P.Wf(t, ps) && i < t.Count() && i !in ps.have
    ensures ps.haveCount != t.Count()
  {
    P.AllIndices(t.Count(), ps.have);
  }

  lemma VerifiedConns(t: Torrent, x: State, p: nat, block: Block, data: Bytes, y: State)
    requires Filed(t, x, p, block, y) && Passes(t, x.s.pieces, block, data, y.s.pieces)
    requires Stores(t, x, p, block, data, y)
    requires Conns(t, x)
    ensures |y.s.disk| == t.totalLength && Conns(t, y)
  {
    hide ConnOk;
    VerifiedBans(t, x.s.pieces.have, x.s.bans, p, block, data, y.s.bans);
    forall j | j in y.s.swarm.conns ensures ConnOk(t, y.s, DeliveredTo(y.h, j), j, y.s.swarm.conns[j]) {
      AnnounceConn(t, x.s, y.s, DeliveredTo(x.h, j), j, x.s.swarm.conns[j], block.piece, data);
    }
  }

  lemma VerifiedBooks(t: Torrent, x: State, p: nat, block: Block, data: Bytes, y: State)
    requires Filed(t, x, p, block, y) && Passes(t, x.s.pieces, block, data, y.s.pieces)
    requires Stores(t, x, p, block, data, y)
    ensures Books(t, y)
  {
    VerifiedBans(t, x.s.pieces.have, x.s.bans, p, block, data, y.s.bans);
    AnnounceSums(x.s.swarm, block.piece, x.h.leaked);
    ConservedSums(t, y.s.pieces, x.s.swarm.conns, y.s.swarm.conns, x.s.swarm.nextId, y.s.queue);
  }

  lemma VerifiedHoldings(t: Torrent, x: State, p: nat, block: Block, data: Bytes, y: State)
    requires Filed(t, x, p, block, y) && Passes(t, x.s.pieces, block, data, y.s.pieces) && Books(t, y)
    requires y.s.bans.senders == x.s.bans.senders - {block.piece} && y.s.bans.hosts == x.s.bans.hosts
    requires EvidenceOk(t, y.s.pieces.have, y.s.bans) && DiskOk(t, y.s.pieces.have, y.s.disk)
    requires y.h.arrivals == Forgotten(x.h.arrivals, block.piece)
    ensures Holdings(t, y)
  {
    NotCompleteYet(t, x.s.pieces, block.piece);
    OverAttributed(t, x.s.pieces, x.s.bans, x.h.arrivals, block, y.s.pieces, y.s.bans);
  }

  // ----- the whole step -----

  lemma IncompleteInv(t: Torrent, x: State, p: nat, block: Block, y: State)
    requires Filed(t, x, p, block, y) && Conns(t, x)
    requires block.offset / BLOCK_SIZE < |x.s.pieces.active[block.piece].states|
    requires block.offset + |block.data| <= |x.s.pieces.active[block.piece].data|
    requires y.s.pieces ==
             x.s.pieces.(active := x.s.pieces.active[block.piece := P.Stored(x.s.pieces.active[block.piece], block)])
    requires y.s.bans == B.OnBlock(x.s.bans, p, block) && y.s.disk == x.s.disk && y.s.swarm == x.s.swarm
    requires y.h.arrivals == Arrived(x.h.arrivals, p, block)
    ensures Inv(t, y)
  {
    FiledBooks(t, x, p, block, y);
    IncompleteHoldings(t, x, p, block, y);
    SameConns(t, x, y);
  }

  lemma FailedInv(t: Torrent, x: State, p: nat, block: Block, data: Bytes, y: State)
    requires Filed(t, x, p, block, y) && Conns(t, x) && Fails(t, x.s.pieces, block, data, y.s.pieces)
    requires y.s.bans == B.OnPieceFailed(B.OnBlock(x.s.bans, p, block), block.piece, data).0
    requires y.s.disk == x.s.disk && y.s.swarm == x.s.swarm && y.h.arrivals == Forgotten(x.h.arrivals, block.piece)
    ensures Inv(t, y)
  {
    FailedEvidence(t, x.s.pieces, x.s.bans, x.h.arrivals, p, block, data, y.s.pieces, y.s.bans);
    FailedSenders(x.s.bans, p, block, data);
    FiledBooks(t, x, p, block, y);
    FailedHoldings(t, x, p, block, data, y);
    SameConns(t, x, y);
  }

  lemma VerifiedInv(t: Torrent, x: State, p: nat, block: Block, data: Bytes, y: State)
    requires Filed(t, x, p, block, y) && Conns(t, x)
    requires Passes(t, x.s.pieces, block, data, y.s.pieces) && Stores(t, x, p, block, data, y)
    requires y.h.arrivals == Forgotten(x.h.arrivals, block.piece)
    ensures Inv(t, y)
  {
    VerifiedBooks(t, x, p, block, data, y);
    VerifiedBans(t, x.s.pieces.have, x.s.bans, p, block, data, y.s.bans);
    VerifiedDisk(t, x.s.pieces.have, x.s.disk, block.piece, data);
    VerifiedHoldings(t, x, p, block, data, y);
    VerifiedConns(t, x, p, block, data, y);
  }

  // Filing an arrived block keeps the invariant, whether the piece is still
  // incomplete, fails or verifies.
  lemma FilePieceInv(t: Torrent, x: State, p: nat, block: Block, y: State)
    requires Inv(t, x) && Files(x, p, block, y) && y.h.arrivals == ArrivalsWith(t, x.s.pieces, x.h.arrivals, p, block)
    requires y.s == FilePiece(t, x.s.(queue := x.s.queue[1..]), p, block).0
    ensures Inv(t, y)
  {
    FiledOk(t, x, p, block, y);
    OnBlockOutcome(t, x.s.pieces, block);
    match P.OnBlock(t, x.s.pieces, block).1
    case Incomplete => IncompleteInv(t, x, p, block, y);
    case PieceFailed(_, data) => FailedInv(t, x, p, block, data, y);
    case PieceVerified(_, data) =>
      Evident(t, x.s.bans, block.piece, data);
      VerifiedInv(t, x, p, block, data, y);
  }

  lemma FilePieceKeeps(t: Torrent, s: Session, p: nat, block: Block)
    requires Shaped(t, s)
    ensures FilePiece(t, s, p, block).0.swarm.conns.Keys == s.swarm.conns.Keys
    ensures FilePiece(t, s, p, block).0.swarm.banned == s.swarm.banned
  {
  }

  lemma InvShaped(t: Torrent, x: State)
    requires Inv(t, x)
    ensures Shaped(t, x.s)
  {
  }

  // the verdict's bans, after the block has been filed
  lemma VerdictInv(t: Torrent, x: State, p: nat, block: Block, order: Host -> seq<nat>, y1: State)
    requires Shaped(t, x.s) && x.s.queue != [] && (forall h :: Lists(order(h), x.s.swarm)) && Inv(t, y1)
    requires y1.s == FilePiece(t, x.s.(queue := x.s.queue[1..]), p, block).0
    ensures Inv(t, y1.(s := OnPiece(t, x.s.(queue := x.s.queue[1..]), p, block, order)))
  {
    hide Inv, FilePiece, BanHosts;
    FilePieceKeeps(t, x.s.(queue := x.s.queue[1..]), p, block);
    BansInv(t, y1, FilePiece(t, x.s.(queue := x.s.queue[1..]), p, block).1, order);
  }

  lemma ArrivedInv(t: Torrent, x: State, order: Host -> seq<nat>, y: State)
    requires Inv(t, x) && DispatchStep(t, x, order, y) && x.s.queue[0].PieceArrived?
    ensures Inv(t, y)
  {
    hide Inv, OnPiece, ArrivalsWith;
    InvShaped(t, x);
    var p, block := x.s.queue[0].peer, x.s.queue[0].block;
    var y1 := State(FilePiece(t, x.s.(queue := x.s.queue[1..]), p, block).0, y.h);
    FilePieceInv(t, x, p, block, y1);
    VerdictInv(t, x, p, block, order, y1);
  }
}
