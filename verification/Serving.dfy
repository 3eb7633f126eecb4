// What peers get for asking, over whole runs: a valid request is queued, stays
// queued until it is dispatched or taken back, and is then answered with the block.
module Serving {
  import opened Types
  import opened Torrents
  import opened Wire
  import opened Bitfields
  import opened Swarms
  import opened Engine
  import opened Invariants
  import opened Dispatching
  import opened Arrivals
  import opened Runs
  import opened Guarantees
  import opened Conversations
  import O = Outboxes
  import P = Pieces
  import B = Bans
  import S = Streams

  // ----- greeted peers may ask -----

  ghost predicate GreetedOk(x: State, p: nat)
  {
    p in x.s.swarm.conns ==> (x.s.swarm.conns[p].amChoking <==> Joined(p) in x.s.queue)
  }

  lemma MessageKeepsGreeted(sw: Swarm, q: seq<Event>, from: nat, msg: Bytes, p: nat)
    requires p in sw.conns
    ensures var r := HandleMessage(sw, q, from, msg);
            && p in r.swarm.conns && r.swarm.conns[p].amChoking == sw.conns[p].amChoking
            && (Joined(p) in r.queue <==> Joined(p) in q)
  {
    hide FromBytes, Bumped, O.Cancel, ReadBe32, HandleCancel;
    if from in sw.conns && msg != [] && msg[0] == MSG_CANCEL { CancelKeepsGreeted(sw, q, from, msg[1..], p); }
  }

  lemma CancelKeepsGreeted(sw: Swarm, q: seq<Event>, from: nat, payload: Bytes, p: nat)
    requires p in sw.conns && from in sw.conns
    ensures var r := HandleCancel(sw, q, from, payload);
            && p in r.swarm.conns && r.swarm.conns[p].amChoking == sw.conns[p].amChoking
            && (Joined(p) in r.queue <==> Joined(p) in q)
  {
    hide O.Cancel, ReadBe32, TripleOf;
    if |payload| == 12 {
      var k := FindAsked(q, BlockAsked(from, TripleOf(payload)));
      if k < |q| { assert q == q[..k] + [q[k]] + q[k + 1..]; }
    }
  }

  lemma BansKeepGreeted(t: Torrent, s: Session, from: nat, block: Block, order: Host -> seq<nat>, p: nat)
    requires Shaped(t, s) && p in OnPiece(t, s, from, block, order).swarm.conns
    ensures p in s.swarm.conns
            && OnPiece(t, s, from, block, order).swarm.conns[p].amChoking == s.swarm.conns[p].amChoking
  {
    hide FilePiece, BanHosts, Shaped;
    var (s1, hosts) := FilePiece(t, s, from, block);
    S.BansKeepConns(s1, hosts, order);
    FiledKeepsGreeted(t, s, from, block, p);
  }

  lemma FiledKeepsGreeted(t: Torrent, s: Session, from: nat, block: Block, p: nat)
    requires Shaped(t, s) && p in FilePiece(t, s, from, block).0.swarm.conns
    ensures p in s.swarm.conns
            && FilePiece(t, s, from, block).0.swarm.conns[p].amChoking == s.swarm.conns[p].amChoking
  {
    hide P.OnBlock, B.OnPieceVerified, B.OnPieceFailed, O.Enqueue;
  }

  lemma JoinedGreets(t: Torrent, s: Session, from: nat, p: nat)
    requires p in s.swarm.conns
    ensures var conns := OnJoined(t, s, from).swarm.conns;
            p in conns && conns[p].amChoking == (s.swarm.conns[p].amChoking && from != p)
  {
    hide Pack, O.Enqueue;
    if from in s.swarm.conns {
      GreetIs(t, s.(bans := B.OnJoin(s.bans, from, s.swarm.conns[from].host)), from);
    }
  }

  lemma DispatchGreets(t: Torrent, x: State, order: Host -> seq<nat>, y: State, p: nat)
    requires Shaped(t, x.s) && DispatchStep(t, x, order, y) && p in y.s.swarm.conns
    ensures p in x.s.swarm.conns && y.s.queue == x.s.queue[1..]
    ensures y.s.swarm.conns[p].amChoking == (x.s.swarm.conns[p].amChoking && x.s.queue[0] != Joined(p))
  {
    hide OnPiece, OnJoined, Shaped, ArrivalsWith, O.Enqueue;
    var s := x.s.(queue := x.s.queue[1..]);
    S.TailShaped(t, x.s);
    DispatchQueue(t, x.s, order);
    match x.s.queue[0]
    case Joined(from) =>
      S.KeysKept(t, s, from);
      JoinedGreets(t, s, from, p);
    case PieceArrived(from, block) => BansKeepGreeted(t, s, from, block, order, p);
    case _ =>
  }

  lemma QueueSplits(t: Torrent, x: State)
    requires Inv(t, x) && x.s.queue != []
    ensures forall j :: x.s.queue[0] != Joined(j) ==> (Joined(j) in x.s.queue[1..] <==> Joined(j) in x.s.queue)
    ensures forall j :: x.s.queue[0] == Joined(j) ==> Joined(j) !in x.s.queue[1..]
  {
    TailOk(x.s.queue, x.s.swarm.nextId, x.s.bans.hosts);
  }

  lemma GreetedStep(t: Torrent, x: State, a: Action, y: State, p: nat)
    requires Inv(t, x) && Shaped(t, x.s) && Next(t, x, a, y) && GreetedOk(x, p)
    ensures GreetedOk(y, p)
  {
    hide Inv, Dispatch, HandleMessage, Shaped, P.PickStep, O.Send, O.Enqueue;
    if p in y.s.swarm.conns {
      if p in x.s.swarm.conns {
        S.OutboxOk(t, x, p);
        match a
        case Deliver(from, msg) => MessageKeepsGreeted(x.s.swarm, x.s.queue, from, msg, p);
        case DispatchNext(order) =>
          DispatchGreets(t, x, order, y, p);
          QueueSplits(t, x);
        case _ =>
      } else {
        S.Newcomer(t, x, a, y, p);
      }
    }
  }

  lemma {:induction false} RunGreeted(t: Torrent, xs: seq<State>, acts: seq<Action>, k: nat, p: nat)
    requires IsRun(t, xs, acts) && k < |xs|
    ensures GreetedOk(xs[k], p)
  {
    hide Inv, Next, GreetedOk, Init;
    if k == 0 {
      NobodyGreeted(t, xs[0], p);
    } else {
      RunGreeted(t, xs, acts, k - 1, p);
      RunInv(t, xs, acts, k - 1);
      InvShaped(t, xs[k - 1]);
      assert Moves(t, xs[k - 1], acts[k - 1], xs[k - 1 + 1]);
      GreetedStep(t, xs[k - 1], acts[k - 1], xs[k], p);
    }
  }

  lemma NobodyGreeted(t: Torrent, x: State, p: nat)
    requires Init(t, x)
    ensures GreetedOk(x, p)
  {
  }

  // In every run a connection is choked by us exactly until it has been greeted.
  lemma GreetedMayAsk(t: Torrent, xs: seq<State>, acts: seq<Action>, k: nat, p: nat)
    requires IsRun(t, xs, acts) && k < |xs| && p in xs[k].s.swarm.conns
    ensures xs[k].s.swarm.conns[p].amChoking <==> Joined(p) in xs[k].s.queue
  {
    hide Moves, Init;
    RunGreeted(t, xs, acts, k, p);
  }

  // ----- requests and cancels as bytes -----

  // a request (6) or cancel (8) message: index, begin and length
  function Triple(id: Byte, r: BlockRequest): Bytes
  {
    [id] + (Be32(r.piece) + (Be32(r.offset) + Be32(r.length)))
  }

  // the fields fit, and no more than a block is asked for
  predicate Askable(r: BlockRequest)
  {
    r.piece < TWO_32 && r.offset < TWO_32 && r.length <= 16384
  }

  lemma TripleRead(id: Byte, r: BlockRequest)
    requires Askable(r)
    ensures var msg := Triple(id, r);
            && |msg| == 13 && msg[0] == id
            && TripleOf(msg[1..]) == r && ReadBe32(msg[1..][8..]) == r.length
  {
    hide Be32, ReadBe32;
    var msg := Triple(id, r);
    var body, rest := Be32(r.piece) + (Be32(r.offset) + Be32(r.length)), Be32(r.offset) + Be32(r.length);
    assert msg[1..] == body;
    assert body[4..] == rest && body[8..] == Be32(r.length) + [];
    Be32RoundTrip(r.piece, rest);
    Be32RoundTrip(r.offset, Be32(r.length));
    Be32RoundTrip(r.length, []);
  }

  lemma RequestQueues(sw: Swarm, q: seq<Event>, p: nat, r: BlockRequest)
    requires p in sw.conns && !sw.conns[p].amChoking && Askable(r)
    ensures HandleMessage(sw, q, p, Triple(6, r)) == Handled(sw, q + [BlockAsked(p, r)], true)
  {
    hide TripleOf, ReadBe32, Triple;
    TripleRead(6, r);
  }

  // ----- a queued request waits for its turn -----

  ghost predicate TakesBack(a: Action, p: nat, r: BlockRequest)
  {
    a.Deliver? && a.peer == p && |a.msg| == 13 && a.msg[0] == 8 && TripleOf(a.msg[1..]) == r
  }

  lemma MessageKeepsAsked(sw: Swarm, q: seq<Event>, from: nat, msg: Bytes, p: nat, r: BlockRequest)
    requires BlockAsked(p, r) in q && !TakesBack(Deliver(from, msg), p, r)
    ensures BlockAsked(p, r) in HandleMessage(sw, q, from, msg).queue
  {
    hide FromBytes, Bumped, O.Cancel, ReadBe32, TripleOf, HandleCancel;
    if from in sw.conns && msg != [] && msg[0] == MSG_CANCEL { CancelKeepsAsked(sw, q, from, msg, p, r); }
  }

  lemma CancelKeepsAsked(sw: Swarm, q: seq<Event>, from: nat, msg: Bytes, p: nat, r: BlockRequest)
    requires from in sw.conns && msg != [] && msg[0] == MSG_CANCEL
    requires BlockAsked(p, r) in q && !TakesBack(Deliver(from, msg), p, r)
    ensures BlockAsked(p, r) in HandleCancel(sw, q, from, msg[1..]).queue
  {
    hide O.Cancel, ReadBe32, TripleOf;
    if |msg| == 13 {
      var k := FindAsked(q, BlockAsked(from, TripleOf(msg[1..])));
      if k < |q| { assert q == q[..k] + [q[k]] + q[k + 1..]; }
    }
  }

  lemma AskedStays(t: Torrent, x: State, a: Action, y: State, p: nat, r: BlockRequest)
    requires Shaped(t, x.s) && Next(t, x, a, y) && BlockAsked(p, r) in x.s.queue && !TakesBack(a, p, r)
    ensures BlockAsked(p, r) in y.s.queue || (a.DispatchNext? && x.s.queue[0] == BlockAsked(p, r))
  {
    hide Dispatch, HandleMessage, Shaped, P.PickStep, TakesBack;
    match a
    case Deliver(from, msg) => MessageKeepsAsked(x.s.swarm, x.s.queue, from, msg, p, r);
    case DispatchNext(order) =>
      DispatchQueue(t, x.s, order);
      assert x.s.queue == [x.s.queue[0]] + x.s.queue[1..];
    case _ =>
  }

  // ----- the answer -----

  // this request is answered now: the peer is there, the block is owned, and less
  // than 4 MiB are queued
  ghost predicate Due(t: Torrent, x: State, p: nat, r: BlockRequest)
    requires Shaped(t, x.s)
  {
    && p in x.s.swarm.conns && x.s.swarm.conns[p].out.queued < 4 * 1024 * 1024
    && r.piece in x.s.pieces.have && r.offset + r.length <= t.Size(r.piece)
  }

  // the block that r asks for, from the disk
  ghost function BlockFor(t: Torrent, x: State, r: BlockRequest): Msg
    requires Shaped(t, x.s) && r.piece in x.s.pieces.have && r.offset + r.length <= t.Size(r.piece)
  {
    PieceMsg(r.piece, r.offset, t.PieceOf(x.s.disk, r.piece)[r.offset..r.offset + r.length])
  }

  // the step takes the request off the queue and answers it if that is due
  ghost predicate Answers(t: Torrent, x: State, a: Action, y: State, p: nat, r: BlockRequest)
  {
    && Shaped(t, x.s) && a.DispatchNext? && x.s.queue != [] && x.s.queue[0] == BlockAsked(p, r)
    && y.s.queue == x.s.queue[1..] && y.s.swarm.conns.Keys == x.s.swarm.conns.Keys
    && forall q :: q in x.s.swarm.conns ==>
         y.s.swarm.conns[q].out.buffer ==
         x.s.swarm.conns[q].out.buffer + (if q == p && Due(t, x, p, r) then [BlockFor(t, x, r)] else [])
  }

  lemma DispatchAnswers(t: Torrent, x: State, order: Host -> seq<nat>, y: State, p: nat, r: BlockRequest)
    requires Shaped(t, x.s) && DispatchStep(t, x, order, y) && x.s.queue[0] == BlockAsked(p, r)
    ensures Answers(t, x, DispatchNext(order), y, p, r)
  {
    hide P.Wf;
    forall q | q in x.s.swarm.conns
      ensures q in y.s.swarm.conns && y.s.swarm.conns[q].out.buffer ==
        x.s.swarm.conns[q].out.buffer + (if q == p && Due(t, x, p, r) then [BlockFor(t, x, r)] else [])
    {
      assert x.s.swarm.conns[q].out.buffer + [] == x.s.swarm.conns[q].out.buffer;
    }
  }

  lemma {:induction false} AskedUntil(t: Torrent, xs: seq<State>, acts: seq<Action>, j: nat, k: nat, p: nat,
                                      r: BlockRequest)
    requires IsRun(t, xs, acts) && j <= k < |xs| && BlockAsked(p, r) in xs[j].s.queue
    ensures || BlockAsked(p, r) in xs[k].s.queue
            || (exists m :: j <= m < k && TakesBack(acts[m], p, r))
            || (exists m :: j <= m < k && Answers(t, xs[m], acts[m], xs[m + 1], p, r))
    decreases k
  {
    hide Next, Init, TakesBack, Answers, Shaped;
    if j < k {
      AskedUntil(t, xs, acts, j, k - 1, p, r);
      if BlockAsked(p, r) in xs[k - 1].s.queue && !TakesBack(acts[k - 1], p, r) {
        assert Moves(t, xs[k - 1], acts[k - 1], xs[k - 1 + 1]);
        AskedStays(t, xs[k - 1], acts[k - 1], xs[k], p, r);
        if BlockAsked(p, r) !in xs[k].s.queue {
          HeadAnswers(t, xs[k - 1], acts[k - 1], xs[k - 1 + 1], p, r);
        }
      }
    }
  }

  lemma HeadAnswers(t: Torrent, x: State, a: Action, y: State, p: nat, r: BlockRequest)
    requires Shaped(t, x.s) && Next(t, x, a, y) && a.DispatchNext? && x.s.queue != []
    requires x.s.queue[0] == BlockAsked(p, r)
    ensures Answers(t, x, a, y, p, r)
  {
    hide Shaped, Dispatch;
    DispatchAnswers(t, x, a.order, y, p, r);
  }

  // In every run: a request message of a greeted peer for at most a block is
  // queued, and from then on either waits, or the peer takes it back, or it is
  // dispatched; then the block is appended to the peer's stream whenever the piece
  // is owned, the range lies within it and less than 4 MiB are queued.
  lemma RequestsAreServed(t: Torrent, xs: seq<State>, acts: seq<Action>, j: nat, k: nat, p: nat, r: BlockRequest)
    requires IsRun(t, xs, acts) && j < k < |xs| && Askable(r) && acts[j] == Deliver(p, Triple(6, r))
    requires p in xs[j].s.swarm.conns && Joined(p) !in xs[j].s.queue
    ensures xs[j + 1].s.queue == xs[j].s.queue + [BlockAsked(p, r)]
    ensures || BlockAsked(p, r) in xs[k].s.queue
            || (exists m :: j < m < k && TakesBack(acts[m], p, r))
            || (exists m :: j < m < k && Answers(t, xs[m], acts[m], xs[m + 1], p, r))
  {
    hide Init, TakesBack, Answers, HandleMessage, Shaped, Triple;
    assert Moves(t, xs[j], acts[j], xs[j + 1]);
    GreetedMayAsk(t, xs, acts, j, p);
    RequestQueues(xs[j].s.swarm, xs[j].s.queue, p, r);
    AskedUntil(t, xs, acts, j + 1, k, p, r);
  }

  // Every block of every owned piece can be had this way, the last one included.
  lemma BlocksAreServed(t: Torrent, xs: seq<State>, acts: seq<Action>, j: nat, k: nat, p: nat, i: nat, b: nat)
    requires t.Valid() && i < t.Count() && b < t.Blocks(i)
    requires IsRun(t, xs, acts) && j < k < |xs| && acts[j] == Deliver(p, Triple(6, t.Request(i, b)))
    requires p in xs[j].s.swarm.conns && Joined(p) !in xs[j].s.queue
    requires forall m :: j < m < k ==> !TakesBack(acts[m], p, t.Request(i, b))
    requires BlockAsked(p, t.Request(i, b)) !in xs[k].s.queue
    ensures exists m :: j < m < k && Hands(t, xs[m], xs[m + 1], p, i, b)
  {
    hide *;
    BlockAskable(t, i, b);
    var m := AnsweredOnce(t, xs, acts, j, k, p, t.Request(i, b));
    AnswersHand(t, xs[m], acts[m], xs[m + 1], p, i, b);
  }

  lemma AnsweredOnce(t: Torrent, xs: seq<State>, acts: seq<Action>, j: nat, k: nat, p: nat, r: BlockRequest)
      returns (m: nat)
    requires IsRun(t, xs, acts) && j < k < |xs| && Askable(r) && acts[j] == Deliver(p, Triple(6, r))
    requires p in xs[j].s.swarm.conns && Joined(p) !in xs[j].s.queue
    requires (forall n :: j < n < k ==> !TakesBack(acts[n], p, r)) && BlockAsked(p, r) !in xs[k].s.queue
    ensures j < m < k && |xs| == |acts| + 1 && Answers(t, xs[m], acts[m], xs[m + 1], p, r)
  {
    hide *;
    RunLength(t, xs, acts);
    RequestsAreServed(t, xs, acts, j, k, p, r);
    m :| j < m < k && Answers(t, xs[m], acts[m], xs[m + 1], p, r);
  }

  lemma RunLength(t: Torrent, xs: seq<State>, acts: seq<Action>)
    requires IsRun(t, xs, acts)
    ensures |xs| == |acts| + 1
  {
  }

  lemma BlockAskable(t: Torrent, i: nat, b: nat)
    requires t.Valid() && i < t.Count() && b < t.Blocks(i)
    ensures Askable(t.Request(i, b)) && t.Request(i, b).piece == i
    ensures t.Request(i, b).offset + t.Request(i, b).length <= t.Size(i)
  {
  }

  // if the peer is still there with room and the piece is owned, the peer is sent
  // block b of the piece on disk
  ghost predicate Hands(t: Torrent, x: State, y: State, p: nat, i: nat, b: nat)
    requires t.Valid() && i < t.Count() && b < t.Blocks(i)
  {
    p in x.s.swarm.conns && x.s.swarm.conns[p].out.queued < 4 * 1024 * 1024 && i in x.s.pieces.have ==>
      && p in y.s.swarm.conns && |x.s.disk| == t.totalLength
      && y.s.swarm.conns[p].out.buffer == x.s.swarm.conns[p].out.buffer
                                          + [PieceMsg(i, 16384 * b, t.Slice(i, b, t.PieceOf(x.s.disk, i)))]
  }

  lemma AnswersHand(t: Torrent, x: State, a: Action, y: State, p: nat, i: nat, b: nat)
    requires t.Valid() && i < t.Count() && b < t.Blocks(i) && Answers(t, x, a, y, p, t.Request(i, b))
    ensures Hands(t, x, y, p, i, b)
  {
    hide P.Wf;
    BlockAskable(t, i, b);
  }

  // ----- taking a request back -----

  // n is the last position of ev
  ghost predicate IsLast(q: seq<Event>, ev: Event, n: nat)
  {
    n < |q| && q[n] == ev && forall m :: n < m < |q| ==> q[m] != ev
  }

  // message n is the first queued copy of the block that is not partly sent
  ghost predicate IsFirstCopy(o: O.Outbox, r: BlockRequest, n: nat)
  {
    && n < |o.buffer| && IsCopy(o.buffer[n], r) && (n == 0 ==> o.cursor == 0)
    && forall m :: 0 <= m < n && IsCopy(o.buffer[m], r) ==> m == 0 && o.cursor > 0
  }

  predicate IsCopy(m: Msg, r: BlockRequest)
  {
    m.PieceMsg? && m.piece == r.piece && m.begin == r.offset && |m.data| == r.length
  }

  // what is left of the queue once a copy of the block has been taken back, if there is one
  ghost predicate WithoutCopy(o: O.Outbox, r: BlockRequest, o': O.Outbox)
  {
    if exists n: nat :: IsFirstCopy(o, r, n)
    then exists n: nat :: IsFirstCopy(o, r, n) && o'.buffer == o.buffer[..n] + o.buffer[n + 1..]
    else o' == o
  }

  lemma CancelledCopy(o: O.Outbox, r: BlockRequest)
    ensures WithoutCopy(o, r, O.Cancel(o, r.piece, r.offset, r.length))
  {
    var k := O.CancelAt(o, r.piece, r.offset, r.length);
    if k < |o.buffer| {
      assert IsFirstCopy(o, r, k);
    } else {
      forall n: nat ensures !IsFirstCopy(o, r, n) {
      }
    }
  }

  // one thing is taken back: the latest waiting request, or else a queued block
  ghost predicate TookBack(s: Session, p: nat, r: BlockRequest, s': Session)
    requires p in s.swarm.conns
  {
    if BlockAsked(p, r) in s.queue then
      && s'.swarm == s.swarm
      && exists n: nat :: IsLast(s.queue, BlockAsked(p, r), n) && s'.queue == s.queue[..n] + s.queue[n + 1..]
    else
      && s'.queue == s.queue && p in s'.swarm.conns
      && var c, c' := s.swarm.conns[p], s'.swarm.conns[p];
      && s'.swarm == s.swarm.(conns := s.swarm.conns[p := c.(out := c'.out)]) && WithoutCopy(c.out, r, c'.out)
  }

  lemma CancelPayload(sw: Swarm, q: seq<Event>, p: nat, payload: Bytes)
    requires p in sw.conns && |payload| == 12 && ReadBe32(payload[8..]) <= BLOCK_SIZE
    ensures var r, h, c := TripleOf(payload), HandleCancel(sw, q, p, payload), sw.conns[p];
            if BlockAsked(p, r) in q then
              h.swarm == sw && exists n: nat :: IsLast(q, BlockAsked(p, r), n) && h.queue == q[..n] + q[n + 1..]
            else
              h.swarm == Put(sw, p, c.(out := O.Cancel(c.out, r.piece, r.offset, r.length))) && h.queue == q
  {
    hide TripleOf, ReadBe32, O.Cancel;
    var r := TripleOf(payload);
    var n := FindAsked(q, BlockAsked(p, r));
    if n < |q| {
      assert IsLast(q, BlockAsked(p, r), n);
    }
  }

  lemma CancelHandled(s: Session, p: nat, r: BlockRequest, s': Session)
    requires p in s.swarm.conns && Askable(r)
    requires var h := HandleMessage(s.swarm, s.queue, p, Triple(8, r)); s' == s.(swarm := h.swarm, queue := h.queue)
    ensures TookBack(s, p, r, s')
  {
    hide TripleOf, ReadBe32, Triple, O.Cancel, HandleCancel, WithoutCopy, IsLast;
    TripleRead(8, r);
    CancelPayload(s.swarm, s.queue, p, Triple(8, r)[1..]);
    CancelledCopy(s.swarm.conns[p].out, r);
  }

  // In every run a cancel takes back one thing: the request, if it still waits to
  // be dispatched, the latest if there are several; else the queued block, the
  // first copy not partly sent; else nothing happens.
  lemma CancelsTakeBack(t: Torrent, xs: seq<State>, acts: seq<Action>, k: nat, p: nat, r: BlockRequest)
    requires IsRun(t, xs, acts) && k < |acts| && Askable(r) && acts[k] == Deliver(p, Triple(8, r))
    requires p in xs[k].s.swarm.conns
    ensures TookBack(xs[k].s, p, r, xs[k + 1].s)
  {
    hide Init, HandleMessage, Triple, Shaped, TookBack;
    assert Moves(t, xs[k], acts[k], xs[k + 1]);
    CancelHandled(xs[k].s, p, r, xs[k + 1].s);
  }

  // ----- protocol errors -----

  // the message breaks the protocol, given the peer's earlier messages
  ghost predicate Illegal(heard: seq<Bytes>, msg: Bytes, count: nat, greeted: bool)
  {
    && msg != []
    && match msg[0]
       case 4 => |msg| != 5 || ReadBe32(msg[1..]) >= count
       case 5 => (forall j :: 0 <= j < |heard| ==> !Begins(heard[j], 5)) && FromBytes(msg[1..], count).None?
       case 6 => greeted && (|msg| != 13 || ReadBe32(msg[9..]) > 16384)
       case 7 => |msg| < 9
       case 8 => |msg| != 13 || ReadBe32(msg[9..]) > 16384
       case _ => false
  }

  lemma RefusedOne(heard: seq<Bytes>, sw: Swarm, q: seq<Event>, p: nat, msg: Bytes, count: nat, greeted: bool)
    requires p in sw.conns && |sw.frequency| == count && greeted == !sw.conns[p].amChoking
    requires sw.conns[p].gotBitfield <==> exists j :: 0 <= j < |heard| && Begins(heard[j], 5)
    ensures !HandleMessage(sw, q, p, msg).ok <==> Illegal(heard, msg, count, greeted)
  {
    hide FromBytes, Bumped, O.Cancel, ReadBe32, TripleOf, BlockOf;
    if |msg| == 13 { assert msg[1..][8..] == msg[9..]; }
  }

  // In every run a connected peer's message is refused, which gets the peer
  // dropped, exactly when it breaks the protocol.
  lemma OnlyIllegalIsRefused(t: Torrent, xs: seq<State>, acts: seq<Action>, k: nat, p: nat, msg: Bytes)
    requires IsRun(t, xs, acts) && k < |xs| && p in xs[k].s.swarm.conns
    ensures !HandleMessage(xs[k].s.swarm, xs[k].s.queue, p, msg).ok <==>
            Illegal(HeardFrom(xs, acts, p, k), msg, t.Count(), Joined(p) !in xs[k].s.queue)
  {
    hide Moves, Init, HandleMessage, Illegal;
    RunShaped(t, xs, acts, k);
    CountsShaped(t, xs[k].s);
    PeersAreUnderstood(t, xs, acts, k, p);
    GreetedMayAsk(t, xs, acts, k, p);
    RefusedOne(HeardFrom(xs, acts, p, k), xs[k].s.swarm, xs[k].s.queue, p, msg, t.Count(), Joined(p) !in xs[k].s.queue);
  }
}
