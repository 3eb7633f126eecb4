// What the invariant means for a user of the client: statements about every
// state of every run.
module Guarantees {
  import opened Types
  import opened Torrents
  import opened Wire
  import opened Swarms
  import opened Engine
  import opened Invariants
  import opened Membership
  import opened Arrivals
  import opened Runs
  import opened Honesty
  import Outboxes
  import P = Pieces
  import B = Bans

  // ----- requests -----

  // In every state a block is Requested iff it is in exactly one pending list or
  // one undispatched event, and no request is ever anywhere twice.
  lemma RequestsConserved(t: Torrent, xs: seq<State>, acts: seq<Action>, k: nat, r: BlockRequest)
    requires IsRun(t, xs, acts) && k < |xs|
    ensures Inv(t, xs[k])
    ensures var s := xs[k].s;
            var places := InFlight(s.swarm.conns, s.swarm.nextId, r) + QueueHolds(s.queue, r);
            places <= 1 && (places == 1 <==> P.IsRequested(t, s.pieces, r))
  {
    RunInv(t, xs, acts, k);
    var s := xs[k].s;
    assert InFlight(s.swarm.conns, s.swarm.nextId, r) + QueueHolds(s.queue, r) ==
        (if P.IsRequested(t, s.pieces, r) then 1 else 0);
  }

  // pending lists are bounded and in send order, so what take_stale takes off
  // the front is everything older than the cutoff
  lemma StaleIsPrefix(t: Torrent, xs: seq<State>, acts: seq<Action>, k: nat, p: nat, cutoff: int)
    requires IsRun(t, xs, acts) && k < |xs| && p in xs[k].s.swarm.conns
    ensures var pending := xs[k].s.swarm.conns[p].pending;
            && |pending| <= PIPELINE_DEPTH
            && forall j :: 0 <= j < |pending| ==> (pending[j].sentAt < cutoff <==> j < StaleCount(pending, cutoff))
  {
    RunInv(t, xs, acts, k);
    assert ConnOk(t, xs[k].s, DeliveredTo(xs[k].h, p), p, xs[k].s.swarm.conns[p]);
  }

  // ----- arrivals -----

  // the blocks of a piece one after the other
  function Assembled(arrivals: map<(nat, nat), Arrival>, i: nat, n: nat): Bytes
  {
    if n == 0 then []
    else Assembled(arrivals, i, n - 1) + (if (i, n - 1) in arrivals then arrivals[(i, n - 1)].data else [])
  }

  lemma {:induction false} SlicesAssemble(t: Torrent, bs: B.Bans, arrivals: map<(nat, nat), Arrival>, i: nat,
                                          data: Bytes, n: nat)
    requires t.Valid() && Attempt(t, bs, arrivals, i, data) && n <= t.Blocks(i)
    ensures Assembled(arrivals, i, n) == data[..if n == t.Blocks(i) then |data| else n * BLOCK_SIZE]
  {
    if n == 0 {
    } else {
      SlicesAssemble(t, bs, arrivals, i, data, n - 1);
      assert SlotOk(t, data, bs, arrivals, i, n - 1);
      var lo, len := (n - 1) * BLOCK_SIZE, t.BlockLength(i, n - 1);
      assert data[..lo] + data[lo..lo + len] == data[..lo + len];
    }
  }

  // Every block Session is handed is accepted, and when it completes a piece,
  // the bytes judged are that attempt's blocks in order: every slot has been
  // written, and holds the peer whose block in this attempt is that slice.
  lemma ArrivalsFiled(t: Torrent, xs: seq<State>, acts: seq<Action>, k: nat)
    requires IsRun(t, xs, acts) && k < |xs| && xs[k].s.queue != [] && xs[k].s.queue[0].PieceArrived?
    ensures Inv(t, xs[k])
    ensures var s, ev := xs[k].s, xs[k].s.queue[0];
            var arrivals := Arrived(xs[k].h.arrivals, ev.peer, ev.block);
            var res := P.OnBlock(t, s.pieces, ev.block).1;
            && !res.Rejected?
            && (res.PieceFailed? || res.PieceVerified? ==>
                  && Attempt(t, B.OnBlock(s.bans, ev.peer, ev.block), arrivals, res.index, res.data)
                  && res.data == Assembled(arrivals, res.index, t.Blocks(res.index)))
  {
    RunInv(t, xs, acts, k);
    var x := xs[k];
    var p, block := x.s.queue[0].peer, x.s.queue[0].block;
    ArrivalExpected(t, x);
    OnBlockOutcome(t, x.s.pieces, block);
    var (ps', res) := P.OnBlock(t, x.s.pieces, block);
    if res.PieceFailed? || res.PieceVerified? {
      AssembledFrom(t, x.s.pieces, x.s.bans, x.h.arrivals, p, block, res.data, ps');
    }
  }

  // the step files this block
  ghost predicate FilesBlock(x: State, a: Action, i: nat, b: nat, arrival: Arrival)
  {
    && a.DispatchNext? && x.s.queue != [] && x.s.queue[0].PieceArrived?
    && var ev := x.s.queue[0];
    && ev.block.piece == i && ev.block.offset / BLOCK_SIZE == b && arrival == Arrival(ev.peer, ev.block.data)
  }

  // the step brings a verdict on the piece
  ghost predicate Judges(t: Torrent, x: State, a: Action, i: nat)
    requires t.Valid()
  {
    && a.DispatchNext? && x.s.queue != [] && x.s.queue[0].PieceArrived?
    && var res := P.OnBlock(t, x.s.pieces, x.s.queue[0].block).1;
    && (res.PieceFailed? || res.PieceVerified?) && res.index == i
  }

  // The blocks on record for a piece were filed since its last verdict, so a
  // retry never counts a block of an attempt that failed.
  lemma {:induction false} ArrivalsAreRecent(t: Torrent, xs: seq<State>, acts: seq<Action>, k: nat, i: nat, b: nat)
    requires t.Valid() && IsRun(t, xs, acts) && k < |xs| && (i, b) in xs[k].h.arrivals
    ensures exists j :: 0 <= j < k && FilesBlock(xs[j], acts[j], i, b, xs[k].h.arrivals[(i, b)])
                        && forall m :: j <= m < k ==> !Judges(t, xs[m], acts[m], i)
  {
    hide Next, Init, Inv;
    if k > 0 {
      RunInv(t, xs, acts, k - 1);
      InvShaped(t, xs[k - 1]);
      assert Moves(t, xs[k - 1], acts[k - 1], xs[k - 1 + 1]);
      var x, a, y := xs[k - 1], acts[k - 1], xs[k];
      StepRecent(t, x, a, y, i, b);
      if !FilesBlock(x, a, i, b, y.h.arrivals[(i, b)]) {
        ArrivalsAreRecent(t, xs, acts, k - 1, i, b);
        var j :| 0 <= j < k - 1 && FilesBlock(xs[j], acts[j], i, b, y.h.arrivals[(i, b)])
                 && forall m :: j <= m < k - 1 ==> !Judges(t, xs[m], acts[m], i);
        assert forall m :: j <= m < k ==> !Judges(t, xs[m], acts[m], i);
      }
    } else {
      NoneAtFirst(t, xs[0]);
    }
  }

  lemma NoneAtFirst(t: Torrent, x: State)
    requires Init(t, x)
    ensures x.h.arrivals == map[]
  {
  }

  lemma StepRecent(t: Torrent, x: State, a: Action, y: State, i: nat, b: nat)
    requires Shaped(t, x.s) && Next(t, x, a, y) && (i, b) in y.h.arrivals
    ensures !Judges(t, x, a, i)
    ensures FilesBlock(x, a, i, b, y.h.arrivals[(i, b)])
            || ((i, b) in x.h.arrivals && x.h.arrivals[(i, b)] == y.h.arrivals[(i, b)])
  {
  }

  lemma AssembledFrom(t: Torrent, ps: P.Pieces, bs: B.Bans, arrivals: map<(nat, nat), Arrival>, p: nat, block: Block,
                      data: Bytes, ps': P.Pieces)
    requires t.Valid() && Expected(t, ps, bs, arrivals, p, block) && Completes(t, ps, block, data, ps')
    ensures Attempt(t, B.OnBlock(bs, p, block), Arrived(arrivals, p, block), block.piece, data)
    ensures data == Assembled(Arrived(arrivals, p, block), block.piece, t.Blocks(block.piece))
  {
    CompletedAttempt(t, ps, bs, arrivals, p, block, data, ps');
    SlicesAssemble(t, B.OnBlock(bs, p, block), Arrived(arrivals, p, block), block.piece, data, t.Blocks(block.piece));
    assert data[..|data|] == data;
  }

  // the peer's message carries this block
  ghost predicate Carries(a: Action, p: nat, block: Block)
  {
    a.Deliver? && a.peer == p && |a.msg| >= 9 && a.msg[0] == MSG_PIECE && BlockOf(a.msg[1..]) == block
  }

  lemma StepQueues(t: Torrent, x: State, a: Action, y: State, ev: Event)
    requires Shaped(t, x.s) && Next(t, x, a, y) && ev in y.s.queue && ev.PieceArrived?
    ensures ev in x.s.queue || Carries(a, ev.peer, ev.block)
  {
    hide HandleMessage, Dispatch;
    match a
    case Deliver(p, msg) => DeliverEvents(x.s.swarm, x.s.queue, p, msg);
    case DispatchNext(order) => DispatchQueue(t, x.s, order);
    case _ => OtherSteps(t, x, a, y);
  }

  lemma DispatchQueue(t: Torrent, s: Session, order: Host -> seq<nat>)
    requires Shaped(t, s) && s.queue != []
    ensures Dispatch(t, s, order).queue == s.queue[1..]
  {
    hide BanHosts, FilePiece;
    if s.queue[0].PieceArrived? {
      var s0, p, block := s.(queue := s.queue[1..]), s.queue[0].peer, s.queue[0].block;
      FilePieceQueue(t, s0, p, block);
      BansTouch(FilePiece(t, s0, p, block).0, FilePiece(t, s0, p, block).1, order);
    }
  }

  // Every queued block came in a message of the peer it is attributed to.
  lemma {:induction false} QueuedWereSent(t: Torrent, xs: seq<State>, acts: seq<Action>, k: nat, ev: Event)
    requires IsRun(t, xs, acts) && k < |xs| && ev in xs[k].s.queue && ev.PieceArrived?
    ensures exists j :: 0 <= j < k && Carries(acts[j], ev.peer, ev.block)
  {
    hide Next, Init, Inv, Carries;
    if k == 0 {
      QuietAtFirst(t, xs[0]);
    } else {
      RunInv(t, xs, acts, k - 1);
      InvShaped(t, xs[k - 1]);
      assert Moves(t, xs[k - 1], acts[k - 1], xs[k - 1 + 1]);
      StepQueues(t, xs[k - 1], acts[k - 1], xs[k], ev);
      if !Carries(acts[k - 1], ev.peer, ev.block) {
        QueuedWereSent(t, xs, acts, k - 1, ev);
      }
    }
  }

  lemma QuietAtFirst(t: Torrent, x: State)
    requires Init(t, x)
    ensures x.s.queue == []
  {
  }

  // Every block on record came in an earlier message of the peer on record.
  lemma ArrivalsWereSent(t: Torrent, xs: seq<State>, acts: seq<Action>, k: nat, i: nat, b: nat)
    requires t.Valid() && IsRun(t, xs, acts) && k < |xs| && (i, b) in xs[k].h.arrivals
    ensures var arrival := xs[k].h.arrivals[(i, b)];
            exists j, offset :: 0 <= j < k && offset / BLOCK_SIZE == b &&
                                Carries(acts[j], arrival.peer, Block(i, offset, arrival.data))
  {
    hide Moves, Init, Carries;
    ArrivalsAreRecent(t, xs, acts, k, i, b);
    var arrival := xs[k].h.arrivals[(i, b)];
    var j :| 0 <= j < k && FilesBlock(xs[j], acts[j], i, b, arrival);
    var ev := xs[j].s.queue[0];
    QueuedWereSent(t, xs, acts, j, ev);
    var m :| 0 <= m < j && Carries(acts[m], ev.peer, ev.block);
    assert ev.block == Block(i, ev.block.offset, arrival.data);
    assert 0 <= m < k && Carries(acts[m], arrival.peer, Block(i, ev.block.offset, arrival.data));
  }

  // ----- blame -----

  // A failed piece with one sender gets that sender's host banned; with several
  // a failed copy is on file as evidence: the first such copy, with its senders.
  lemma FailureIsHandled(t: Torrent, xs: seq<State>, acts: seq<Action>, k: nat)
    requires IsRun(t, xs, acts) && k < |xs| && xs[k].s.queue != [] && xs[k].s.queue[0].PieceArrived?
    ensures Inv(t, xs[k])
    ensures var s, ev := xs[k].s, xs[k].s.queue[0];
            var res := P.OnBlock(t, s.pieces, ev.block).1;
            var bs := B.OnBlock(s.bans, ev.peer, ev.block);
            var (s1, hosts) := FilePiece(t, s.(queue := s.queue[1..]), ev.peer, ev.block);
            res.PieceFailed? ==>
              && bs.senders[res.index] != []
              && if B.SoleSender(bs.senders[res.index])
                 then bs.senders[res.index][0] in bs.hosts && hosts == [bs.hosts[bs.senders[res.index][0]]]
                 else
                   && hosts == [] && res.index in s1.bans.evidence
                   && !t.Verify(res.index, s1.bans.evidence[res.index].data)
                   && s1.bans.evidence[res.index] == if res.index in s.bans.evidence then s.bans.evidence[res.index]
                                                     else B.Evidence(res.data, bs.senders[res.index])
  {
    RunInv(t, xs, acts, k);
    var x := xs[k];
    var p, block := x.s.queue[0].peer, x.s.queue[0].block;
    ArrivalExpected(t, x);
    OnBlockOutcome(t, x.s.pieces, block);
    FilePieceBans(t, x.s.(queue := x.s.queue[1..]), p, block);
    var (ps', res) := P.OnBlock(t, x.s.pieces, block);
    if res.PieceFailed? {
      CompletedAttempt(t, x.s.pieces, x.s.bans, x.h.arrivals, p, block, res.data, ps');
      assert SlotOk(t, res.data, B.OnBlock(x.s.bans, p, block), Arrived(x.h.arrivals, p, block), block.piece, 0);
    }
  }

  // Verifying a piece with evidence on it bans exactly the hosts of the
  // mismatching blocks, and there is always at least one: the "every block
  // matches" warning cannot be logged.
  lemma EvidenceConvicts(t: Torrent, xs: seq<State>, acts: seq<Action>, k: nat)
    requires IsRun(t, xs, acts) && k < |xs| && xs[k].s.queue != [] && xs[k].s.queue[0].PieceArrived?
    ensures Inv(t, xs[k])
    ensures var s, ev := xs[k].s, xs[k].s.queue[0];
            var res := P.OnBlock(t, s.pieces, ev.block).1;
            var hosts := FilePiece(t, s.(queue := s.queue[1..]), ev.peer, ev.block).1;
            if res.PieceVerified? && res.index in s.bans.evidence then
              var kept := s.bans.evidence[res.index];
              && B.EvidenceFits(kept, res.data)
              && hosts != [] && B.Distinct(hosts)
              && forall h :: h in hosts <==> exists b :: 0 <= b < |kept.senders| && B.Mismatch(kept, res.data, b)
                                                  && kept.senders[b] in s.bans.hosts
                                                       && s.bans.hosts[kept.senders[b]] == h
            else res.PieceVerified? ==> hosts == []
  {
    RunInv(t, xs, acts, k);
    var x := xs[k];
    var p, block := x.s.queue[0].peer, x.s.queue[0].block;
    ArrivalExpected(t, x);
    OnBlockOutcome(t, x.s.pieces, block);
    FilePieceBans(t, x.s.(queue := x.s.queue[1..]), p, block);
    var (ps', res) := P.OnBlock(t, x.s.pieces, block);
    if res.PieceVerified? && res.index in x.s.bans.evidence {
      var kept := x.s.bans.evidence[res.index];
      B.FailedCopyIsBlamed(t, x.s.bans.hosts, kept, res.index, res.data);
      B.BlamedExactly(x.s.bans.hosts, kept, res.data, |kept.senders|);
    }
  }

  // No established connection belongs to a banned host.
  lemma NoBannedConnections(t: Torrent, xs: seq<State>, acts: seq<Action>, k: nat, p: nat)
    requires IsRun(t, xs, acts) && k < |xs| && p in xs[k].s.swarm.conns
    ensures xs[k].s.swarm.conns[p].host !in xs[k].s.swarm.banned
  {
    RunInv(t, xs, acts, k);
    assert ConnOk(t, xs[k].s, DeliveredTo(xs[k].h, p), p, xs[k].s.swarm.conns[p]);
  }

  // ----- the download itself -----

  // Owned pieces have bytes on disk that pass the hash check, and the counters
  // that report progress are exact.
  lemma OwnedIsVerified(t: Torrent, xs: seq<State>, acts: seq<Action>, k: nat)
    requires IsRun(t, xs, acts) && k < |xs|
    ensures Shaped(t, xs[k].s)
    ensures forall i :: i in xs[k].s.pieces.have ==> i < t.Count() && t.Verify(i, t.PieceOf(xs[k].s.disk, i))
    ensures var ps := xs[k].s.pieces;
            && ps.haveCount == |ps.have| && ps.haveBytes <= t.totalLength
            && (t.totalLength - ps.haveBytes == 0 <==> forall i :: 0 <= i < t.Count() ==> i in ps.have)
  {
    RunInv(t, xs, acts, k);
    P.CountersExact(t, xs[k].s.pieces);
  }

  lemma {:induction false} BansKeepDisk(s: Session, hosts: seq<Host>, order: Host -> seq<nat>)
    ensures BanHosts(s, hosts, order).disk == s.disk && BanHosts(s, hosts, order).pieces.have == s.pieces.have
    decreases |hosts|
  {
    if hosts == [] {
    } else {
      ReleaseEventsHave(s.pieces, Ban(s.swarm, hosts[0], order(hosts[0])).1);
      BansKeepDisk(BanHost(s, hosts[0], order(hosts[0])), hosts[1..], order);
    }
  }

  // pieces owned in s are owned, with the same bytes, in s'
  ghost predicate KeepsOwned(t: Torrent, s: Session, s': Session)
    requires t.Valid() && |s.disk| == |s'.disk| == t.totalLength
  {
    forall i :: i in s.pieces.have && i < t.Count() ==>
        i in s'.pieces.have && t.PieceOf(s'.disk, i) == t.PieceOf(s.disk, i)
  }

  lemma FilingKeepsOwned(t: Torrent, s: Session, p: nat, block: Block)
    requires Shaped(t, s)
    ensures var s1 := FilePiece(t, s, p, block).0;
            |s1.disk| == t.totalLength && KeepsOwned(t, s, s1)
  {
    var res := P.OnBlock(t, s.pieces, block).1;
    if res.PieceVerified? {
      forall i | i in s.pieces.have && i < t.Count()
        ensures t.PieceOf(FilePiece(t, s, p, block).0.disk, i) == t.PieceOf(s.disk, i)
      {
        t.WriteElsewhere(s.disk, res.index, res.data, i);
      }
    }
  }

  lemma NextKeepsOwned(t: Torrent, x: State, a: Action, y: State)
    requires Shaped(t, x.s) && Next(t, x, a, y)
    ensures |y.s.disk| == t.totalLength && KeepsOwned(t, x.s, y.s)
  {
    match a
    case DispatchNext(order) =>
      if x.s.queue[0].PieceArrived? {
        var s := x.s.(queue := x.s.queue[1..]);
        var p, block := x.s.queue[0].peer, x.s.queue[0].block;
        FilingKeepsOwned(t, s, p, block);
        BansKeepDisk(FilePiece(t, s, p, block).0, FilePiece(t, s, p, block).1, order);
      }
    case Schedule(p, now, pieces, req) =>
      P.PickRequests(t, x.s.pieces, x.s.swarm.conns[p].has, x.s.swarm.frequency, p, pieces, req);
    case _ =>
  }

  lemma RunShaped(t: Torrent, xs: seq<State>, acts: seq<Action>, k: nat)
    requires IsRun(t, xs, acts) && k < |xs|
    ensures Shaped(t, xs[k].s)
  {
    RunInv(t, xs, acts, k);
  }

  lemma RunStepKeepsOwned(t: Torrent, xs: seq<State>, acts: seq<Action>, k: nat)
    requires IsRun(t, xs, acts) && k < |acts|
    ensures Shaped(t, xs[k].s) && |xs[k + 1].s.disk| == t.totalLength && KeepsOwned(t, xs[k].s, xs[k + 1].s)
  {
    assert Moves(t, xs[k], acts[k], xs[k + 1]);
    NextKeepsOwned(t, xs[k], acts[k], xs[k + 1]);
  }

  lemma KeepsOwnedTrans(t: Torrent, a: Session, b: Session, c: Session)
    requires t.Valid() && |a.disk| == |b.disk| == |c.disk| == t.totalLength && KeepsOwned(t, a, b)
    requires KeepsOwned(t, b, c)
    ensures KeepsOwned(t, a, c)
  {
  }

  // Once owned, a piece stays owned and later writes never disturb its bytes.
  lemma {:induction false} OwnedStays(t: Torrent, xs: seq<State>, acts: seq<Action>, j: nat, k: nat)
    requires IsRun(t, xs, acts) && j <= k < |xs|
    ensures Shaped(t, xs[j].s) && Shaped(t, xs[k].s) && KeepsOwned(t, xs[j].s, xs[k].s)
    decreases k - j
  {
    hide Moves, Init;
    RunShaped(t, xs, acts, k);
    if j < k {
      OwnedStays(t, xs, acts, j, k - 1);
      RunStepKeepsOwned(t, xs, acts, k - 1);
      KeepsOwnedTrans(t, xs[j].s, xs[k - 1].s, xs[k].s);
    }
  }

  // Whatever was or will be sent on a live connection as a block is a slice of a
  // piece on disk that passes the hash check; queued blocks are bounded.
  lemma ServedIsVerified(t: Torrent, xs: seq<State>, acts: seq<Action>, k: nat, p: nat, m: Msg)
    requires IsRun(t, xs, acts) && k < |xs| && p in xs[k].s.swarm.conns
    ensures Shaped(t, xs[k].s)
    ensures var c := xs[k].s.swarm.conns[p];
            && c.out.queued == Outboxes.Total(c.out.buffer)
            && Outboxes.PieceTotal(c.out.buffer) < Outboxes.MAX_QUEUED + 13 + BLOCK_SIZE
            && (m in DeliveredTo(xs[k].h, p) + c.out.buffer && m.PieceMsg? ==>
                  && m.piece < t.Count()
                  && t.Verify(m.piece, t.PieceOf(xs[k].s.disk, m.piece))
                  && m.begin + |m.data| <= t.Size(m.piece)
                  && m.data == t.PieceOf(xs[k].s.disk, m.piece)[m.begin..m.begin + |m.data|])
  {
    RunInv(t, xs, acts, k);
    assert ConnOk(t, xs[k].s, DeliveredTo(xs[k].h, p), p, xs[k].s.swarm.conns[p]);
  }

  // The stream to a greeted peer is: handshake and keep-alives, one bitfield, and
  // have messages; together they announce exactly the owned pieces, each once.
  // Before the greeting nothing has been announced.
  lemma AnnouncedIsOwned(t: Torrent, xs: seq<State>, acts: seq<Action>, k: nat, p: nat)
    requires IsRun(t, xs, acts) && k < |xs| && p in xs[k].s.swarm.conns
    ensures var x := xs[k];
            Scan(DeliveredTo(x.h, p) + x.s.swarm.conns[p].out.buffer, t.Count()) ==
              if Joined(p) in x.s.queue then Fresh else Told(x.s.pieces.have)
  {
    RunInv(t, xs, acts, k);
    assert ConnOk(t, xs[k].s, DeliveredTo(xs[k].h, p), p, xs[k].s.swarm.conns[p]);
  }
}
