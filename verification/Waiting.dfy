// What peers are being waited for, over whole runs: a request is pending from the
// moment it is made until its answer, a timeout or a choke, and no longer.
module Waiting {
  import opened Types
  import opened Torrents
  import opened Wire
  import opened Swarms
  import opened Engine
  import opened Invariants
  import opened Arrivals
  import opened Runs
  import opened Conversations
  import O = Outboxes
  import P = Pieces
  import S = Streams

  // p is asked for r
  ghost predicate Opens(a: Action, p: nat, r: PendingRequest)
  {
    a.Schedule? && a.peer == p && r == PendingRequest(a.req, a.now)
  }

  // p need not be waited for any more: it chokes us, it sends the block, or the
  // request is older than the cutoff of a timeout
  ghost predicate Closes(a: Action, p: nat, r: PendingRequest)
  {
    || (a.Deliver? && a.peer == p && Begins(a.msg, 0))
    || (a.Deliver? && a.peer == p && |a.msg| >= 9 && a.msg[0] == 7
        && var block := BlockOf(a.msg[1..]); r.req == BlockRequest(block.piece, block.offset, |block.data|))
    || (a.ExpireAt? && a.peer == p && r.sentAt < a.cutoff)
  }

  // ----- no request is pending twice -----

  lemma {:induction false} PartOfSum(f: nat -> nat, n: nat, p: nat)
    requires p < n
    ensures f(p) <= SumBelow(f, n)
  {
    if p < n - 1 {
      PartOfSum(f, n - 1, p);
    }
  }

  ghost predicate Unique(pending: seq<PendingRequest>)
  {
    forall j, k :: 0 <= j < k < |pending| ==> pending[j].req != pending[k].req
  }

  lemma PendingOnce(t: Torrent, x: State, p: nat)
    requires Inv(t, x) && p in x.s.swarm.conns
    ensures Unique(x.s.swarm.conns[p].pending)
  {
    var pending, s := x.s.swarm.conns[p].pending, x.s;
    S.OutboxOk(t, x, p);
    forall j, k | 0 <= j < k < |pending| ensures pending[j].req != pending[k].req {
      var r := pending[j].req;
      assert InFlight(s.swarm.conns, s.swarm.nextId, r) + QueueHolds(s.queue, r) ==
          (if P.IsRequested(t, s.pieces, r) then 1 else 0);
      PartOfSum(AsksAt(s.swarm.conns, r), s.swarm.nextId, p);
      if pending[k].req == r { TwiceCounts(RequestsOf(pending), j, k); }
    }
  }

  lemma TwiceCounts(reqs: seq<BlockRequest>, j: nat, k: nat)
    requires j < k < |reqs| && reqs[j] == reqs[k]
    ensures multiset(reqs)[reqs[j]] >= 2
  {
    assert reqs == reqs[..k] + [reqs[k]] + reqs[k + 1..];
    assert reqs[j] in reqs[..k];
  }

  // ----- one step -----

  lemma PieceCloses(sw: Swarm, q: seq<Event>, p: nat, msg: Bytes, r: PendingRequest)
    requires p in sw.conns && Unique(sw.conns[p].pending) && msg != [] && msg[0] == 7
    ensures var conns := HandlePiece(sw, q, p, msg[1..]).swarm.conns;
            p in conns && (r in conns[p].pending <==> r in sw.conns[p].pending && !Closes(Deliver(p, msg), p, r))
  {
    hide BlockOf;
    var pending := sw.conns[p].pending;
    if |msg| >= 9 {
      var block := BlockOf(msg[1..]);
      var req := BlockRequest(block.piece, block.offset, |block.data|);
      var k := FindPending(pending, req);
      if k < |pending| { WithoutOne(pending, k, r); }
    }
  }

  lemma WithoutOne(pending: seq<PendingRequest>, k: nat, r: PendingRequest)
    requires Unique(pending) && k < |pending|
    ensures r in Without(pending, k) <==> r in pending && r.req != pending[k].req
  {
    assert pending == pending[..k] + [pending[k]] + pending[k + 1..];
    if r in pending && r.req == pending[k].req {
      var j :| 0 <= j < |pending| && pending[j] == r;
      assert j == k;
    }
  }

  lemma MessageCloses(sw: Swarm, q: seq<Event>, from: nat, msg: Bytes, p: nat, r: PendingRequest)
    requires p in sw.conns && Unique(sw.conns[p].pending)
    ensures var conns := HandleMessage(sw, q, from, msg).swarm.conns;
            p in conns && (r in conns[p].pending <==> r in sw.conns[p].pending && !Closes(Deliver(from, msg), p, r))
  {
    hide HandlePiece, HandleHave, HandleBitfield, HandleRequest, HandleCancel, BlockOf, Learns;
    if p != from {
      OthersMessages(sw, q, from, msg, p);
    } else if msg != [] {
      if msg[0] == 4 {
        HeardHave(sw, q, p, msg);
      } else if msg[0] == 5 {
        HeardBitfield(sw, q, p, msg);
      } else if msg[0] == 7 {
        PieceCloses(sw, q, p, msg, r);
      } else if msg[0] == 6 || msg[0] == 8 {
        AskingCloses(sw, q, p, msg[1..]);
      }
    }
  }

  lemma AskingCloses(sw: Swarm, q: seq<Event>, p: nat, payload: Bytes)
    requires p in sw.conns
    ensures HandleRequest(sw, q, p, payload).swarm == sw
    ensures var conns := HandleCancel(sw, q, p, payload).swarm.conns;
            p in conns && conns[p].pending == sw.conns[p].pending
  {
    hide O.Cancel, ReadBe32, TripleOf;
  }

  lemma TimeoutCloses(s: Session, from: nat, cutoff: int, p: nat, r: PendingRequest)
    requires from in s.swarm.conns && p in s.swarm.conns && PendingOk(s.swarm.conns[p].pending, s.clock)
    ensures var conns := Expire(s, from, cutoff).swarm.conns;
            p in conns && (r in conns[p].pending <==> r in s.swarm.conns[p].pending
                                                      && !Closes(ExpireAt(from, cutoff), p, r))
  {
    hide P.Release;
    var pending := s.swarm.conns[p].pending;
    var k := StaleCount(pending, cutoff);
    assert pending == pending[..k] + pending[k..];
    forall j | k <= j < |pending| ensures pending[j].sentAt >= cutoff {
      assert pending[k].sentAt <= pending[j].sentAt;
    }
  }

  lemma PendingStep(t: Torrent, x: State, a: Action, y: State, p: nat, r: PendingRequest)
    requires Inv(t, x) && Shaped(t, x.s) && Next(t, x, a, y) && p in x.s.swarm.conns && p in y.s.swarm.conns
    ensures r in y.s.swarm.conns[p].pending <==>
            Opens(a, p, r) || (r in x.s.swarm.conns[p].pending && !Closes(a, p, r))
  {
    hide Inv, Handle, HandleMessage, Shaped, P.PickStep, O.Send, O.Enqueue, Expire, BlockOf, Unique, PendingOk;
    S.OutboxOk(t, x, p);
    PendingOnce(t, x, p);
    InSendOrder(t, x, p);
    match a
    case Deliver(from, msg) => MessageCloses(x.s.swarm, x.s.queue, from, msg, p, r);
    case ExpireAt(from, cutoff) => TimeoutCloses(x.s, from, cutoff, p, r);
    case DispatchNext(order) =>
      S.TailShaped(t, x.s);
      HandledSpoke(t, x.s.(queue := x.s.queue[1..]), x.s.queue[0], order, p);
    case _ =>
  }

  // ----- whole runs -----

  ghost predicate OpenAt(acts: seq<Action>, k: nat, p: nat, r: PendingRequest)
    requires k <= |acts|
  {
    exists j :: 0 <= j < k && Opens(acts[j], p, r) && forall m :: j < m < k ==> !Closes(acts[m], p, r)
  }

  lemma OpenMore(acts: seq<Action>, k: nat, p: nat, r: PendingRequest)
    requires 0 < k <= |acts|
    ensures OpenAt(acts, k, p, r) <==>
            Opens(acts[k - 1], p, r) || (OpenAt(acts, k - 1, p, r) && !Closes(acts[k - 1], p, r))
  {
    hide Opens, Closes;
    if OpenAt(acts, k, p, r) && !Opens(acts[k - 1], p, r) {
      var j :| 0 <= j < k && Opens(acts[j], p, r) && forall m :: j < m < k ==> !Closes(acts[m], p, r);
      assert 0 <= j < k - 1;
    }
    if OpenAt(acts, k - 1, p, r) && !Closes(acts[k - 1], p, r) {
      var j :| 0 <= j < k - 1 && Opens(acts[j], p, r) && forall m :: j < m < k - 1 ==> !Closes(acts[m], p, r);
      assert forall m :: j < m < k ==> !Closes(acts[m], p, r);
    }
  }

  lemma NeverOpened(t: Torrent, xs: seq<State>, acts: seq<Action>, k: nat, p: nat, r: PendingRequest)
    requires IsRun(t, xs, acts) && 0 < k < |xs| && p == xs[k - 1].s.swarm.nextId
    ensures !OpenAt(acts, k, p, r)
  {
    hide Init, Closes;
    forall j | 0 <= j < k ensures !Opens(acts[j], p, r) {
      NeverBefore(t, xs, acts, j, k - 1, p);
      assert Moves(t, xs[j], acts[j], xs[j + 1]);
    }
  }

  lemma NewcomersOwe(t: Torrent, x: State, a: Action, y: State, p: nat)
    requires Shaped(t, x.s) && Next(t, x, a, y) && p in y.s.swarm.conns && p !in x.s.swarm.conns
    ensures y.s.swarm.conns[p].pending == [] && p == x.s.swarm.nextId
  {
    hide Shaped, Handle, HandleMessage, P.PickStep;
    S.Newcomer(t, x, a, y, p);
  }

  // In every run a connected peer is waited for exactly the requests made to it that
  // it has not answered since, that no timeout has found too old, and that no choke
  // has cancelled; each with the time it was made, and none twice.
  lemma {:induction false} PendingIsOpen(t: Torrent, xs: seq<State>, acts: seq<Action>, k: nat, p: nat,
                                         r: PendingRequest)
    requires IsRun(t, xs, acts) && k < |xs| && p in xs[k].s.swarm.conns
    ensures r in xs[k].s.swarm.conns[p].pending <==> OpenAt(acts, k, p, r)
    ensures Unique(xs[k].s.swarm.conns[p].pending)
    decreases k
  {
    hide Inv, Next, Init, OpenAt, Unique;
    RunInv(t, xs, acts, k);
    PendingOnce(t, xs[k], p);
    if k == 0 {
      NobodyConnected(t, xs[0]);
    } else {
      RunInv(t, xs, acts, k - 1);
      InvShaped(t, xs[k - 1]);
      assert Moves(t, xs[k - 1], acts[k - 1], xs[k - 1 + 1]);
      if p in xs[k - 1].s.swarm.conns {
        PendingIsOpen(t, xs, acts, k - 1, p, r);
        PendingStep(t, xs[k - 1], acts[k - 1], xs[k], p, r);
        OpenMore(acts, k, p, r);
      } else {
        NewcomersOwe(t, xs[k - 1], acts[k - 1], xs[k], p);
        NeverOpened(t, xs, acts, k, p, r);
      }
    }
  }

  // In every run a peer is only asked when its last word was an unchoke, when it is
  // waited for fewer than 32 blocks, or none if it is snubbed, and only for a block
  // of a piece it has said it has and we do not own, in the terms of that block.
  lemma AskedWhenAllowed(t: Torrent, xs: seq<State>, acts: seq<Action>, k: nat)
    requires t.Valid() && IsRun(t, xs, acts) && k < |acts| && acts[k].Schedule?
    ensures var p, req := acts[k].peer, acts[k].req;
            && p in xs[k].s.swarm.conns
            && var c, heard := xs[k].s.swarm.conns[p], HeardFrom(xs, acts, p, k);
            && LastSaid(heard, 1, 0) && HasSaid(heard, t.Count(), req.piece)
            && (if c.snubbed then c.pending == [] else |c.pending| < 32)
            && req.piece !in xs[k].s.pieces.have
            && req.piece < t.Count() && exists b: nat :: b < t.Blocks(req.piece) && req == t.Request(req.piece, b)
  {
    hide Init, LastSaid, HasSaid, P.PickStep, Shaped;
    assert Moves(t, xs[k], acts[k], xs[k + 1]);
    PeersAreUnderstood(t, xs, acts, k, acts[k].peer);
    PickedBlock(t, xs[k].s, acts[k].peer, acts[k].pieces, acts[k].req);
  }

  lemma PickedBlock(t: Torrent, s: Session, p: nat, pieces: P.Pieces, req: BlockRequest)
    requires Shaped(t, s) && p in s.swarm.conns
    requires P.PickStep(t, s.pieces, s.swarm.conns[p].has, s.swarm.frequency, p, pieces, Some(req))
    ensures req.piece in s.swarm.conns[p].has && req.piece !in s.pieces.have
    ensures req.piece < t.Count() && exists b: nat :: b < t.Blocks(req.piece) && req == t.Request(req.piece, b)
  {
    P.PickRequests(t, s.pieces, s.swarm.conns[p].has, s.swarm.frequency, p, pieces, req);
    var b := if P.Offers(s.pieces, s.swarm.conns[p].has, p, req.piece) then req.offset / BLOCK_SIZE else 0;
    assert b < t.Blocks(req.piece) && req == t.Request(req.piece, b);
  }

  // a block of piece i is neither requested nor here
  ghost predicate Lacks(ps: P.Pieces, i: nat)
  {
    i in ps.active && exists b :: 0 <= b < |ps.active[i].states| && ps.active[i].states[b] == P.Missing
  }

  // In every run the scheduler goes on with a piece under way, at its first missing
  // block, before it starts another, at block 0; and it starts none that is more
  // widely available than another it could start.
  lemma RarestFirst(t: Torrent, xs: seq<State>, acts: seq<Action>, k: nat)
    requires t.Valid() && IsRun(t, xs, acts) && k < |acts| && acts[k].Schedule?
    ensures acts[k].peer in xs[k].s.swarm.conns && |xs[k].s.swarm.frequency| == t.Count()
    ensures var s, i, b := xs[k].s, acts[k].req.piece, acts[k].req.offset / 16384;
            var has := s.swarm.conns[acts[k].peer].has;
            if i in s.pieces.active then
              && b < |s.pieces.active[i].states| && s.pieces.active[i].states[b] == P.Missing
              && forall c :: 0 <= c < b ==> s.pieces.active[i].states[c] != P.Missing
            else
              && b == 0 && i < t.Count()
              && (forall j :: j in has ==> !Lacks(s.pieces, j))
              && (forall j: nat :: j < t.Count() && j in has && j !in s.pieces.have && j !in s.pieces.active ==>
                    s.swarm.frequency[i] <= s.swarm.frequency[j])
  {
    hide Init, Inv;
    assert Moves(t, xs[k], acts[k], xs[k + 1]);
    RunInv(t, xs, acts, k);
    NoOwners(t, xs[k]);
    PickedRarest(t, xs[k].s, acts[k].peer, acts[k].pieces, acts[k].req);
  }

  lemma NoOwners(t: Torrent, x: State)
    requires Inv(t, x)
    ensures Unowned(x.s.pieces)
  {
  }

  lemma PickedRarest(t: Torrent, s: Session, p: nat, pieces: P.Pieces, req: BlockRequest)
    requires Shaped(t, s) && p in s.swarm.conns && Unowned(s.pieces)
    requires P.PickStep(t, s.pieces, s.swarm.conns[p].has, s.swarm.frequency, p, pieces, Some(req))
    ensures var i, b, has := req.piece, req.offset / 16384, s.swarm.conns[p].has;
            if i in s.pieces.active then
              && b < |s.pieces.active[i].states| && s.pieces.active[i].states[b] == P.Missing
              && forall c :: 0 <= c < b ==> s.pieces.active[i].states[c] != P.Missing
            else
              && b == 0 && i < t.Count()
              && (forall j :: j in has ==> !Lacks(s.pieces, j))
              && (forall j: nat :: j < t.Count() && j in has && j !in s.pieces.have && j !in s.pieces.active ==>
                    s.swarm.frequency[i] <= s.swarm.frequency[j])
  {
    hide P.Wf;
    var has := s.swarm.conns[p].has;
    if req.piece !in s.pieces.active {
      forall j | j in has ensures !Lacks(s.pieces, j) {
        assert !P.Offers(s.pieces, has, p, j);
      }
      forall j: nat | j < t.Count() && j in has && j !in s.pieces.have && j !in s.pieces.active
        ensures s.swarm.frequency[req.piece] <= s.swarm.frequency[j]
      {
        assert P.Startable(t.Count(), s.pieces, has, j);
      }
    }
  }
}
