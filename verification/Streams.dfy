// The bytes of every live connection, over whole runs: they go through a run of
// the write queue, so all that is known of whole messages holds of the wire.
module Streams {
  import opened Types
  import opened Torrents
  import opened Wire
  import opened Bitfields
  import opened Swarms
  import opened Engine
  import opened Invariants
  import opened Dispatching
  import opened Arrivals
  import opened Runs
  import opened PeerManagers
  import O = Outboxes
  import W = WriteQueues
  import P = Pieces
  import B = Bans

  // ----- one connection -----

  // the byte queue of some run holds this outbox; its kernel has these bytes
  ghost predicate Mirrors(ys: seq<W.Stream>, ops: seq<W.Op>, o: O.Outbox, taken: Bytes, delivered: seq<Msg>)
  {
    && W.IsRun(ys, ops)
    && ys[|ops|].q == W.OnWire(o) && ys[|ops|].sent == taken && ys[|ops|].done == W.Encoded(delivered)
  }

  ghost predicate Mirrored(o: O.Outbox, taken: Bytes, delivered: seq<Msg>)
  {
    exists ys, ops :: Mirrors(ys, ops, o, taken, delivered)
  }

  lemma MirrorMore(ys: seq<W.Stream>, ops: seq<W.Op>, o: O.Outbox, taken: Bytes, delivered: seq<Msg>,
                   op: W.Op, y: W.Stream, o': O.Outbox, taken': Bytes, delivered': seq<Msg>)
    requires Mirrors(ys, ops, o, taken, delivered) && W.Step(ys[|ops|], op, y)
    requires y.q == W.OnWire(o') && y.sent == taken' && y.done == W.Encoded(delivered')
    ensures Mirrored(o', taken', delivered')
  {
    hide W.Step;
    var ys', ops' := ys + [y], ops + [op];
    forall k | 0 <= k < |ops'| ensures W.Step(ys'[k], ops'[k], ys'[k + 1]) {
      if k < |ops| { assert W.Step(ys[k], ops[k], ys[k + 1]); }
    }
    assert Mirrors(ys', ops', o', taken', delivered');
  }

  lemma MirrorStart()
    ensures Mirrored(O.EMPTY, [], [])
  {
    assert W.Encoded([]) == [];
    assert Mirrors([W.INIT], [], O.EMPTY, [], []);
  }

  lemma MirrorEnqueue(o: O.Outbox, taken: Bytes, delivered: seq<Msg>, m: Msg)
    requires Mirrored(o, taken, delivered)
    ensures Mirrored(O.Enqueue(o, m), taken, delivered)
  {
    var ys, ops :| Mirrors(ys, ops, o, taken, delivered);
    W.EnqueueOnWire(o, m);
    EncodeSize(m);
    MirrorMore(ys, ops, o, taken, delivered, W.EnqueueOp(Encode(m)), W.EnqueueStep(ys[|ops|], Encode(m)),
               O.Enqueue(o, m), taken, delivered);
  }

  lemma MirrorCancel(o: O.Outbox, taken: Bytes, delivered: seq<Msg>, r: BlockRequest)
    requires Mirrored(o, taken, delivered) && O.Wf(o)
    ensures Mirrored(O.Cancel(o, r.piece, r.offset, r.length), taken, delivered)
  {
    var ys, ops :| Mirrors(ys, ops, o, taken, delivered);
    var x, op, k := ys[|ops|], W.CancelOp(r.piece, r.offset, r.length), O.CancelAt(o, r.piece, r.offset, r.length);
    W.RunFramed(ys, ops, |ops|);
    W.CancelOnWire(o, r.piece, r.offset, r.length);
    var y := if k < |o.buffer| then W.CancelStep(x, k) else x.(removed := x.removed + [None]);
    assert W.Step(x, op, y);
    MirrorMore(ys, ops, o, taken, delivered, op, y, O.Cancel(o, r.piece, r.offset, r.length), taken, delivered);
  }

  // the kernel takes the next w bytes
  function Taking(o: O.Outbox, w: nat): Bytes
    requires O.CanSend(o, w)
  {
    EncodeSize(o.buffer[0]);
    Encode(o.buffer[0])[o.cursor..o.cursor + w]
  }

  lemma MirrorSend(o: O.Outbox, taken: Bytes, delivered: seq<Msg>, w: nat)
    requires Mirrored(o, taken, delivered) && O.CanSend(o, w)
    ensures var o' := O.Send(o, w);
            Mirrored(o', taken + Taking(o, w),
                     if |o'.buffer| == |o.buffer| then delivered else delivered + [o.buffer[0]])
  {
    var ys, ops :| Mirrors(ys, ops, o, taken, delivered);
    var o' := O.Send(o, w);
    W.SendOnWire(o, w);
    EncodeSize(o.buffer[0]);
    assert W.Encoded(delivered + [o.buffer[0]]) == W.Encoded(delivered) + [Encode(o.buffer[0])];
    MirrorMore(ys, ops, o, taken, delivered, W.SendOp(w), W.SendStep(ys[|ops|], w), o', taken + Taking(o, w),
               if |o'.buffer| == |o.buffer| then delivered else delivered + [o.buffer[0]]);
  }

  // sent and unsent bytes are the messages, whole and in order
  lemma MirrorFramed(o: O.Outbox, taken: Bytes, delivered: seq<Msg>)
    requires Mirrored(o, taken, delivered)
    ensures W.Wf(W.OnWire(o)) && taken + W.Remainder(W.OnWire(o)) == Join(W.Encoded(delivered + o.buffer))
  {
    hide W.Step, W.Remainder, W.Wf;
    var ys, ops :| Mirrors(ys, ops, o, taken, delivered);
    W.RunBytes(ys, ops, |ops|);
    assert W.Encoded(delivered + o.buffer) == W.Encoded(delivered) + W.Encoded(o.buffer);
  }

  // ----- what a step does to an outbox -----

  // after the connection is made only these things happen to it, sends aside
  ghost predicate OutStep(o: O.Outbox, o': O.Outbox)
  {
    || (exists m: Msg :: !m.Handshake? && o' == O.Enqueue(o, m))
    || (exists r: BlockRequest :: O.Wf(o) && o' == O.Cancel(o, r.piece, r.offset, r.length))
  }

  ghost predicate OutPath(os: seq<O.Outbox>)
  {
    os != [] && forall k :: 0 <= k < |os| - 1 ==> OutStep(os[k], os[k + 1])
  }

  ghost predicate Goes(o: O.Outbox, o': O.Outbox)
  {
    exists os :: OutPath(os) && os[0] == o && os[|os| - 1] == o'
  }

  lemma GoesNowhere(o: O.Outbox)
    ensures Goes(o, o)
  {
    assert OutPath([o]);
  }

  lemma GoesOn(o: O.Outbox, o': O.Outbox, o'': O.Outbox)
    requires Goes(o, o') && OutStep(o', o'')
    ensures Goes(o, o'')
  {
    hide OutStep;
    var os :| OutPath(os) && os[0] == o && os[|os| - 1] == o';
    var os' := os + [o''];
    forall k | 0 <= k < |os'| - 1 ensures OutStep(os'[k], os'[k + 1]) {
      if k < |os| - 1 { assert OutStep(os[k], os[k + 1]); }
    }
    assert OutPath(os');
  }

  lemma GoesEnqueue(o: O.Outbox, o': O.Outbox, m: Msg)
    requires Goes(o, o') && !m.Handshake?
    ensures Goes(o, O.Enqueue(o', m))
  {
    GoesOn(o, o', O.Enqueue(o', m));
  }

  // a handshake is the first message or none
  ghost predicate HandshakeFirst(log: seq<Msg>)
  {
    forall j :: 1 <= j < |log| ==> !log[j].Handshake?
  }

  ghost predicate Live(o: O.Outbox, taken: Bytes, delivered: seq<Msg>)
  {
    Mirrored(o, taken, delivered) && HandshakeFirst(delivered + o.buffer)
  }

  lemma LiveStep(o: O.Outbox, taken: Bytes, delivered: seq<Msg>, o': O.Outbox)
    requires Live(o, taken, delivered) && OutStep(o, o')
    ensures Live(o', taken, delivered)
  {
    hide Mirrored;
    if m: Msg :| !m.Handshake? && o' == O.Enqueue(o, m) {
      MirrorEnqueue(o, taken, delivered, m);
      assert delivered + o'.buffer == delivered + o.buffer + [m];
    } else {
      var r: BlockRequest :| O.Wf(o) && o' == O.Cancel(o, r.piece, r.offset, r.length);
      MirrorCancel(o, taken, delivered, r);
      CancelKeepsFirst(o, delivered, r);
    }
  }

  lemma CancelKeepsFirst(o: O.Outbox, delivered: seq<Msg>, r: BlockRequest)
    requires HandshakeFirst(delivered + o.buffer)
    ensures HandshakeFirst(delivered + O.Cancel(o, r.piece, r.offset, r.length).buffer)
  {
    var k := O.CancelAt(o, r.piece, r.offset, r.length);
    if k < |o.buffer| {
      W.WithoutAppend(delivered, o.buffer, k);
      WithoutKeepsFirst(delivered + o.buffer, |delivered| + k);
    }
  }

  lemma WithoutKeepsFirst(log: seq<Msg>, k: nat)
    requires HandshakeFirst(log) && k < |log|
    ensures HandshakeFirst(Without(log, k))
  {
  }

  lemma {:induction false} LivePath(os: seq<O.Outbox>, k: nat, taken: Bytes, delivered: seq<Msg>)
    requires OutPath(os) && k < |os| && Live(os[0], taken, delivered)
    ensures Live(os[k], taken, delivered)
  {
    if k == 0 {
    } else {
      hide Live, OutStep;
      LivePath(os, k - 1, taken, delivered);
      assert OutStep(os[k - 1], os[k - 1 + 1]);
      LiveStep(os[k - 1], taken, delivered, os[k]);
    }
  }

  lemma LiveGoes(o: O.Outbox, taken: Bytes, delivered: seq<Msg>, o': O.Outbox)
    requires Live(o, taken, delivered) && Goes(o, o')
    ensures Live(o', taken, delivered)
  {
    var os :| OutPath(os) && os[0] == o && os[|os| - 1] == o';
    LivePath(os, |os| - 1, taken, delivered);
  }

  // ----- what a step of the session does to an outbox -----

  // only a cancel message touches the outbox
  lemma MessageCancels(sw: Swarm, q: seq<Event>, from: nat, msg: Bytes, p: nat) returns (r: Option<BlockRequest>)
    requires p in sw.conns
    ensures var conns := HandleMessage(sw, q, from, msg).swarm.conns;
            && conns.Keys == sw.conns.Keys
            && conns[p].out == match r case None => sw.conns[p].out
                                       case Some(b) => O.Cancel(sw.conns[p].out, b.piece, b.offset, b.length)
  {
    hide FromBytes, Bumped, O.Cancel, ReadBe32;
    var conns := HandleMessage(sw, q, from, msg).swarm.conns;
    if p == from && |msg| == 13 && msg[0] == MSG_CANCEL && conns[p].out != sw.conns[p].out {
      r := Some(TripleOf(msg[1..]));
    } else {
      r := None;
    }
  }

  lemma MessageOut(sw: Swarm, q: seq<Event>, from: nat, msg: Bytes, p: nat)
    requires p in sw.conns && O.Wf(sw.conns[p].out)
    ensures var conns := HandleMessage(sw, q, from, msg).swarm.conns;
            conns.Keys == sw.conns.Keys && Goes(sw.conns[p].out, conns[p].out)
  {
    hide HandleMessage, O.Cancel, Goes;
    var r := MessageCancels(sw, q, from, msg, p);
    var o, o' := sw.conns[p].out, HandleMessage(sw, q, from, msg).swarm.conns[p].out;
    GoesNowhere(o);
    if r.Some? {
      assert OutStep(o, o');
      GoesOn(o, o, o');
    }
  }

  lemma GreetedOut(t: Torrent, c: Conn, have: set<nat>, haveCount: nat)
    ensures Goes(c.out, Greeted(t, c, have, haveCount).out)
  {
    hide Pack;
    var o1 := O.Enqueue(c.out, BitfieldMsg(Pack(have, t.Count())));
    var o2 := O.Enqueue(o1, Control(MSG_UNCHOKE));
    GoesNowhere(c.out);
    GoesEnqueue(c.out, c.out, BitfieldMsg(Pack(have, t.Count())));
    GoesEnqueue(c.out, o1, Control(MSG_UNCHOKE));
    GoesEnqueue(c.out, o2, Control(MSG_INTERESTED));
  }

  lemma JoinedOut(t: Torrent, s: Session, from: nat, p: nat)
    requires p in s.swarm.conns
    ensures var conns := OnJoined(t, s, from).swarm.conns;
            conns.Keys == s.swarm.conns.Keys && Goes(s.swarm.conns[p].out, conns[p].out)
  {
    hide Pack, Greeted;
    GoesNowhere(s.swarm.conns[p].out);
    if from in s.swarm.conns {
      GreetIs(t, s.(bans := B.OnJoin(s.bans, from, s.swarm.conns[from].host)), from);
      GreetedOut(t, s.swarm.conns[from], s.pieces.have, s.pieces.haveCount);
    }
  }

  lemma {:induction false} BansKeepConns(s: Session, hosts: seq<Host>, order: Host -> seq<nat>)
    ensures var conns := BanHosts(s, hosts, order).swarm.conns;
            forall p :: p in conns ==> p in s.swarm.conns && conns[p] == s.swarm.conns[p]
    decreases |hosts|
  {
    if hosts == [] {
    } else {
      var host := hosts[0];
      DropHostKeeps(s.swarm.(banned := s.swarm.banned + {host}), host, order(host));
      BansKeepConns(BanHost(s, host, order(host)), hosts[1..], order);
    }
  }

  lemma FiledOut(t: Torrent, s: Session, from: nat, block: Block, p: nat)
    requires Shaped(t, s) && p in s.swarm.conns
    ensures var conns := FilePiece(t, s, from, block).0.swarm.conns;
            conns.Keys == s.swarm.conns.Keys && Goes(s.swarm.conns[p].out, conns[p].out)
  {
    hide P.OnBlock, B.OnPieceVerified, B.OnPieceFailed;
    var o, res := s.swarm.conns[p].out, P.OnBlock(t, s.pieces, block).1;
    GoesNowhere(o);
    if res.PieceVerified? { GoesEnqueue(o, o, Have(res.index)); }
  }

  lemma HandledOut(t: Torrent, s: Session, ev: Event, order: Host -> seq<nat>, p: nat)
    requires Shaped(t, s) && p in Handle(t, s, ev, order).swarm.conns
    ensures p in s.swarm.conns && Goes(s.swarm.conns[p].out, Handle(t, s, ev, order).swarm.conns[p].out)
  {
    hide FilePiece, BanHosts, OnJoined, Shaped;
    match ev
    case Joined(from) =>
      KeysKept(t, s, from);
      JoinedOut(t, s, from, p);
    case PieceArrived(from, block) =>
      var (s1, hosts) := FilePiece(t, s, from, block);
      BansKeepConns(s1, hosts, order);
      FilePieceKeeps(t, s, from, block);
      FiledOut(t, s, from, block, p);
    case BlockAsked(from, req) => AnsweredOut(t, s, from, req, p);
    case _ => GoesNowhere(s.swarm.conns[p].out);
  }

  lemma KeysKept(t: Torrent, s: Session, from: nat)
    ensures OnJoined(t, s, from).swarm.conns.Keys == s.swarm.conns.Keys
  {
  }

  lemma AnsweredOut(t: Torrent, s: Session, from: nat, req: BlockRequest, p: nat)
    requires Shaped(t, s) && p in OnAsked(t, s, from, req).swarm.conns
    ensures p in s.swarm.conns && Goes(s.swarm.conns[p].out, OnAsked(t, s, from, req).swarm.conns[p].out)
  {
    var o, o' := s.swarm.conns[p].out, OnAsked(t, s, from, req).swarm.conns[p].out;
    GoesNowhere(o);
    if o' != o { GoesEnqueue(o, o, o'.buffer[|o.buffer|]); }
  }

  // A connection that lives through a step, other than by sending, is told more or has a block taken back.
  lemma OutMoves(t: Torrent, x: State, a: Action, y: State, p: nat)
    requires Inv(t, x) && Shaped(t, x.s) && Next(t, x, a, y)
    requires p in x.s.swarm.conns && p in y.s.swarm.conns && !(a.Transmit? && a.peer == p)
    ensures DeliveredTo(y.h, p) == DeliveredTo(x.h, p) && Goes(x.s.swarm.conns[p].out, y.s.swarm.conns[p].out)
  {
    hide Inv, Handle, HandleMessage, Shaped, Goes, P.PickStep, Expire;
    var o := x.s.swarm.conns[p].out;
    GoesNowhere(o);
    OutboxOk(t, x, p);
    match a
    case Deliver(from, msg) => MessageOut(x.s.swarm, x.s.queue, from, msg, p);
    case ExpireAt(from, cutoff) => ExpiredOut(x.s, from, cutoff, p);
    case DispatchNext(order) =>
      TailShaped(t, x.s);
      HandledOut(t, x.s.(queue := x.s.queue[1..]), x.s.queue[0], order, p);
    case KeepAliveTo(_) => GoesEnqueue(o, o, KeepAlive);
    case Schedule(_, _, _, req) => GoesEnqueue(o, o, RequestMsg(req));
    case _ =>
  }

  lemma TailShaped(t: Torrent, s: Session)
    requires Shaped(t, s) && s.queue != []
    ensures Shaped(t, s.(queue := s.queue[1..]))
  {
  }

  lemma ExpiredOut(s: Session, from: nat, cutoff: int, p: nat)
    requires from in s.swarm.conns && p in s.swarm.conns
    ensures p in Expire(s, from, cutoff).swarm.conns
    ensures Expire(s, from, cutoff).swarm.conns[p].out == s.swarm.conns[p].out
  {
  }

  lemma MessageKeys(sw: Swarm, q: seq<Event>, from: nat, msg: Bytes)
    ensures HandleMessage(sw, q, from, msg).swarm.conns.Keys == sw.conns.Keys
  {
    hide FromBytes, Bumped, O.Cancel, ReadBe32;
  }

  lemma ExpiredKeys(s: Session, from: nat, cutoff: int)
    requires from in s.swarm.conns
    ensures Expire(s, from, cutoff).swarm.conns.Keys == s.swarm.conns.Keys
  {
  }

  lemma OutboxOk(t: Torrent, x: State, p: nat)
    requires Inv(t, x) && p in x.s.swarm.conns
    ensures O.Wf(x.s.swarm.conns[p].out) && p < x.s.swarm.nextId
  {
    assert ConnOk(t, x.s, DeliveredTo(x.h, p), p, x.s.swarm.conns[p]);
  }

  // the only way to become a connection
  lemma Newcomer(t: Torrent, x: State, a: Action, y: State, p: nat)
    requires Shaped(t, x.s) && Next(t, x, a, y) && p in y.s.swarm.conns && p !in x.s.swarm.conns
    ensures a.FinishHandshake? && p == x.s.swarm.nextId && DeliveredTo(y.h, p) == DeliveredTo(x.h, p)
    ensures y.s.swarm.conns[p].out == match a.reply case None => O.EMPTY case Some(m) => O.Enqueue(O.EMPTY, m)
  {
    hide Handle, Shaped, HandleMessage, Goes, P.PickStep, Expire;
    match a
    case Deliver(from, msg) => MessageKeys(x.s.swarm, x.s.queue, from, msg);
    case ExpireAt(from, cutoff) => ExpiredKeys(x.s, from, cutoff);
    case DispatchNext(order) =>
      TailShaped(t, x.s);
      HandledOut(t, x.s.(queue := x.s.queue[1..]), x.s.queue[0], order, p);
    case _ =>
  }

  // ids are handed out in order and never again
  lemma IdsGrow(t: Torrent, x: State, a: Action, y: State)
    requires Inv(t, x) && Shaped(t, x.s) && Next(t, x, a, y)
    ensures x.s.swarm.nextId <= y.s.swarm.nextId
  {
    hide Inv;
    match a
    case DispatchNext(order) =>
      DispatchIds(t, x.s, order);
    case _ =>
  }

  lemma {:induction false} BansKeepIds(s: Session, hosts: seq<Host>, order: Host -> seq<nat>)
    ensures BanHosts(s, hosts, order).swarm.nextId == s.swarm.nextId
    decreases |hosts|
  {
    if hosts == [] {
    } else {
      DropHostKeepsIds(s.swarm.(banned := s.swarm.banned + {hosts[0]}), hosts[0], order(hosts[0]));
      BansKeepIds(BanHost(s, hosts[0], order(hosts[0])), hosts[1..], order);
    }
  }

  lemma {:induction false} DropHostKeepsIds(sw: Swarm, host: Host, order: seq<nat>)
    ensures DropHost(sw, host, order).0.nextId == sw.nextId
    decreases |order|
  {
    if order == [] {
    } else {
      if order[0] in sw.conns && sw.conns[order[0]].host == host {
        DropHostKeepsIds(Drop(sw, order[0]).0, host, order[1..]);
      } else {
        DropHostKeepsIds(sw, host, order[1..]);
      }
    }
  }

  lemma DispatchIds(t: Torrent, s: Session, order: Host -> seq<nat>)
    requires Shaped(t, s) && s.queue != []
    ensures Dispatch(t, s, order).swarm.nextId == s.swarm.nextId
  {
    hide BanHosts;
    if s.queue[0].PieceArrived? {
      var (s1, hosts) := FilePiece(t, s.(queue := s.queue[1..]), s.queue[0].peer, s.queue[0].block);
      BansKeepIds(s1, hosts, order);
    }
  }

  // ----- whole runs -----

  ghost predicate SendsTo(x: State, a: Action, p: nat)
  {
    a.Transmit? && a.peer == p && p in x.s.swarm.conns && O.CanSend(x.s.swarm.conns[p].out, a.w)
  }

  // every byte the kernel has taken for p in the first k steps
  ghost function Taken(xs: seq<State>, acts: seq<Action>, p: nat, k: nat): Bytes
    requires k <= |acts| <= |xs|
  {
    if k == 0 then []
    else Taken(xs, acts, p, k - 1) + TakenBy(xs[k - 1], acts[k - 1], p)
  }

  ghost function TakenBy(x: State, a: Action, p: nat): Bytes
  {
    if SendsTo(x, a, p) then Taking(x.s.swarm.conns[p].out, a.w) else []
  }

  ghost predicate StreamAt(x: State, p: nat, taken: Bytes)
  {
    if p in x.s.swarm.conns then Live(x.s.swarm.conns[p].out, taken, DeliveredTo(x.h, p))
    else p >= x.s.swarm.nextId ==> taken == []
  }

  lemma StreamStep(t: Torrent, x: State, a: Action, y: State, p: nat, taken: Bytes)
    requires Inv(t, x) && Shaped(t, x.s) && Next(t, x, a, y) && StreamAt(x, p, taken)
    ensures StreamAt(y, p, taken + TakenBy(x, a, p))
  {
    hide Inv, Shaped, Live, Goes, Handle, HandleMessage;
    IdsGrow(t, x, a, y);
    assert taken + [] == taken;
    if p in y.s.swarm.conns {
      if p !in x.s.swarm.conns {
        Newcomer(t, x, a, y, p);
        NothingDelivered(t, x, p);
        LiveStart(y.s.swarm.conns[p].out, a.reply);
      } else if a.Transmit? && a.peer == p {
        LiveSend(x.s.swarm.conns[p].out, taken, DeliveredTo(x.h, p), a.w);
      } else {
        OutMoves(t, x, a, y, p);
        LiveGoes(x.s.swarm.conns[p].out, taken, DeliveredTo(x.h, p), y.s.swarm.conns[p].out);
      }
    } else if p in x.s.swarm.conns {
      OutboxOk(t, x, p);
    }
  }

  lemma NothingDelivered(t: Torrent, x: State, p: nat)
    requires Inv(t, x) && p == x.s.swarm.nextId
    ensures DeliveredTo(x.h, p) == []
  {
  }

  lemma LiveStart(o: O.Outbox, reply: Option<Msg>)
    requires o == match reply case None => O.EMPTY case Some(m) => O.Enqueue(O.EMPTY, m)
    ensures Live(o, [], [])
  {
    MirrorStart();
    if reply.Some? { MirrorEnqueue(O.EMPTY, [], [], reply.value); }
  }

  lemma LiveSend(o: O.Outbox, taken: Bytes, delivered: seq<Msg>, w: nat)
    requires Live(o, taken, delivered) && O.CanSend(o, w)
    ensures var o' := O.Send(o, w);
            Live(o', taken + Taking(o, w), if |o'.buffer| == |o.buffer| then delivered else delivered + [o.buffer[0]])
  {
    hide Mirrored;
    MirrorSend(o, taken, delivered, w);
    assert delivered + [o.buffer[0]] + o.buffer[1..] == delivered + o.buffer;
  }

  lemma {:induction false} RunStream(t: Torrent, xs: seq<State>, acts: seq<Action>, k: nat, p: nat)
    requires IsRun(t, xs, acts) && k < |xs|
    ensures StreamAt(xs[k], p, Taken(xs, acts, p, k))
  {
    hide Inv, Next, StreamAt, TakenBy, Init;
    if k == 0 {
      NobodyYet(t, xs[0], p);
    } else {
      RunStream(t, xs, acts, k - 1, p);
      RunInv(t, xs, acts, k - 1);
      InvShaped(t, xs[k - 1]);
      assert Moves(t, xs[k - 1], acts[k - 1], xs[k - 1 + 1]);
      StreamStep(t, xs[k - 1], acts[k - 1], xs[k], p, Taken(xs, acts, p, k - 1));
    }
  }

  lemma NobodyYet(t: Torrent, x: State, p: nat)
    requires Init(t, x)
    ensures StreamAt(x, p, [])
  {
  }

  // In every run and for every live connection: the bytes the kernel has taken,
  // followed by those still queued, are the encodings of the delivered and queued
  // messages, whole and in order; a handshake can only be the first of them.
  lemma WireCarriesMessages(t: Torrent, xs: seq<State>, acts: seq<Action>, k: nat, p: nat)
    requires IsRun(t, xs, acts) && k < |xs| && p in xs[k].s.swarm.conns
    ensures var o := xs[k].s.swarm.conns[p].out;
            var log := DeliveredTo(xs[k].h, p) + o.buffer;
            && W.Wf(W.OnWire(o))
            && Taken(xs, acts, p, k) + W.Remainder(W.OnWire(o)) == Join(W.Encoded(log))
            && HandshakeFirst(log)
  {
    hide Mirrored, Inv, Next, Init;
    RunStream(t, xs, acts, k, p);
    MirrorFramed(xs[k].s.swarm.conns[p].out, Taken(xs, acts, p, k), DeliveredTo(xs[k].h, p));
  }

  // ----- reading the stream back -----

  // what a reader gets out of the frame of a message
  function Body(m: Msg): Bytes
  {
    EncodeSize(m);
    Encode(m)[4..]
  }

  function Bodies(msgs: seq<Msg>): (r: seq<Bytes>)
    ensures |r| == |msgs| && forall k :: 0 <= k < |msgs| ==> r[k] == Body(msgs[k])
  {
    seq(|msgs|, k requires 0 <= k < |msgs| => Body(msgs[k]))
  }

  predicate Readable(m: Msg)
  {
    !m.Handshake? && Size(m) <= 4 + MAX_FRAME
  }

  lemma ExtractEncoded(m: Msg, rest: Bytes)
    requires Readable(m)
    ensures ExtractMessage(Encode(m) + rest) == Got(Body(m), rest)
  {
    hide ExtractMessage;
    EncodeSize(m);
    if m.KeepAlive? {
      KeepAliveExtracted(rest);
    } else {
      var id, payload := Framing(m);
      ExtractBuilt(id, payload, rest);
      assert BuildMessage(id, payload)[4..] == [id] + payload;
    }
  }

  lemma KeepAliveExtracted(rest: Bytes)
    ensures ExtractMessage([0, 0, 0, 0] + rest) == Got([], rest)
  {
    var buf := [0, 0, 0, 0] + rest;
    assert buf[4..] == rest && buf[4..4] == [];
  }

  // every other message is an id and a payload
  lemma Framing(m: Msg) returns (id: Byte, payload: Bytes)
    requires !m.Handshake? && !m.KeepAlive?
    ensures Encode(m) == BuildMessage(id, payload) && Size(m) == 5 + |payload|
  {
    match m
    case Control(i) => id, payload := i, [];
    case Have(i) => id, payload := MSG_HAVE, Be32(i);
    case BitfieldMsg(bytes) => id, payload := MSG_BITFIELD, bytes;
    case RequestMsg(r) => id, payload := MSG_REQUEST, Be32(r.piece) + Be32(r.offset) + Be32(r.length);
    case PieceMsg(i, begin, data) => id, payload := MSG_PIECE, Be32(i) + Be32(begin) + data;
  }

  lemma {:induction false} DrainEncoded(msgs: seq<Msg>)
    requires forall m :: m in msgs ==> Readable(m)
    ensures Drain(Join(W.Encoded(msgs))) == Drained(Bodies(msgs), [], false)
    decreases |msgs|
  {
    hide ExtractMessage, Encode;
    if msgs == [] {
      assert W.Encoded(msgs) == [];
      EmptyDrains();
    } else {
      var rest := Join(W.Encoded(msgs[1..]));
      assert W.Encoded(msgs)[1..] == W.Encoded(msgs[1..]);
      ExtractEncoded(msgs[0], rest);
      DrainEncoded(msgs[1..]);
      assert [Body(msgs[0])] + Bodies(msgs[1..]) == Bodies(msgs);
    }
  }

  lemma EmptyDrains()
    ensures Drain([]) == Drained([], [], false)
  {
  }

  lemma {:induction false} ScanBitfields(log: seq<Msg>, count: nat, m: Msg)
    requires Scan(log, count) != Garbled && m in log && m.BitfieldMsg?
    ensures |m.bytes| == ByteCount(count)
    decreases |log|
  {
    var front, last := log[..|log| - 1], log[|log| - 1];
    assert log == front + [last];
    if m in front {
      ScanBitfields(front, count, m);
    }
  }

  // the largest torrent whose bitfield fits in a frame the same reader accepts
  const MAX_READABLE_PIECES: nat := 8 * (MAX_FRAME - 1)

  // A greeting is readable for a client of this kind exactly up to that size.
  lemma GreetingReadable(have: set<nat>, count: nat, rest: Bytes)
    requires count < TWO_32
    ensures var r := ExtractMessage(Encode(BitfieldMsg(Pack(have, count))) + rest);
            if count <= MAX_READABLE_PIECES then r == Got([MSG_BITFIELD] + Pack(have, count), rest) else r == Absurd
  {
    hide ExtractMessage, Pack;
    PackedSize(have, count);
    ExtractBuilt(MSG_BITFIELD, Pack(have, count), rest);
  }

  lemma PackedSize(have: set<nat>, count: nat)
    ensures |Pack(have, count)| == ByteCount(count)
    ensures 1 + ByteCount(count) <= MAX_FRAME <==> count <= MAX_READABLE_PIECES
  {
  }

  // every message but a bitfield is readable whatever the size of the torrent
  lemma AllReadable(t: Torrent, x: State, p: nat, m: Msg)
    requires Inv(t, x) && p in x.s.swarm.conns
    requires m in DeliveredTo(x.h, p) + x.s.swarm.conns[p].out.buffer && !m.Handshake?
    ensures Readable(m) <==> !m.BitfieldMsg? || t.Count() <= MAX_READABLE_PIECES
  {
    var log := DeliveredTo(x.h, p) + x.s.swarm.conns[p].out.buffer;
    assert ConnOk(t, x.s, DeliveredTo(x.h, p), p, x.s.swarm.conns[p]);
    assert ServedOk(t, x.s.pieces.have, x.s.disk, m);
    if m.BitfieldMsg? {
      ScanBitfields(log, t.Count(), m);
      PackedSize({}, t.Count());
    }
  }

  // readable messages are read, and reading goes on after them
  lemma {:induction false} DrainOn(msgs: seq<Msg>, rest: Bytes)
    requires forall m :: m in msgs ==> Readable(m)
    ensures Drain(Join(W.Encoded(msgs)) + rest) == After(Bodies(msgs), Drain(rest))
    decreases |msgs|
  {
    hide ExtractMessage, Encode, Drain;
    if msgs == [] {
      assert W.Encoded(msgs) == [] && Bodies(msgs) == [];
      assert [] + rest == rest && [] + Drain(rest).msgs == Drain(rest).msgs;
    } else {
      var more := Join(W.Encoded(msgs[1..])) + rest;
      assert W.Encoded(msgs)[1..] == W.Encoded(msgs[1..]);
      assert Join(W.Encoded(msgs)) + rest == Encode(msgs[0]) + more;
      ExtractEncoded(msgs[0], more);
      DrainStep(Encode(msgs[0]) + more, Body(msgs[0]), more);
      DrainOn(msgs[1..], rest);
      assert [Body(msgs[0])] + Bodies(msgs[1..]) == Bodies(msgs);
      AfterAfter([Body(msgs[0])], Bodies(msgs[1..]), Drain(rest));
    }
  }

  lemma DrainStep(buf: Bytes, m: Bytes, rest: Bytes)
    requires ExtractMessage(buf) == Got(m, rest)
    ensures Drain(buf) == After([m], Drain(rest))
  {
  }

  lemma RefusedDrains(buf: Bytes)
    requires ExtractMessage(buf) == Absurd
    ensures Drain(buf).failed
  {
  }

  // one message too long and reading fails there
  lemma TooLong(msgs: seq<Msg>, k: nat)
    requires k < |msgs| && (forall j :: 0 <= j < k ==> Readable(msgs[j]))
    requires msgs[k].BitfieldMsg? && !Readable(msgs[k]) && |msgs[k].bytes| < TWO_32 - 1
    ensures Drain(Join(W.Encoded(msgs))).failed
  {
    hide ExtractMessage, Drain, Encode;
    var front, rest := msgs[..k], Join(W.Encoded(msgs[k + 1..]));
    assert W.Encoded(msgs) == W.Encoded(front) + ([Encode(msgs[k])] + W.Encoded(msgs[k + 1..]));
    W.JoinAppend(W.Encoded(front), [Encode(msgs[k])] + W.Encoded(msgs[k + 1..]));
    assert ([Encode(msgs[k])] + W.Encoded(msgs[k + 1..]))[1..] == W.Encoded(msgs[k + 1..]);
    DrainOn(front, Encode(msgs[k]) + rest);
    BitfieldRefused(msgs[k].bytes, rest);
    RefusedDrains(Encode(msgs[k]) + rest);
  }

  lemma BitfieldRefused(bytes: Bytes, rest: Bytes)
    requires MAX_FRAME < 1 + |bytes| < TWO_32
    ensures ExtractMessage(Encode(BitfieldMsg(bytes)) + rest) == Absurd
  {
    hide ExtractMessage;
    ExtractBuilt(MSG_BITFIELD, bytes, rest);
  }

  // Whoever reads a live connection's bytes as this client reads them gets, after
  // the handshake, exactly the messages that were delivered or are queued, if and
  // only if the torrent is small enough or no bitfield is among them; otherwise
  // the reader gives up on a bad length.
  lemma PeersReadTheMessages(t: Torrent, xs: seq<State>, acts: seq<Action>, k: nat, p: nat)
    requires IsRun(t, xs, acts) && k < |xs| && p in xs[k].s.swarm.conns
    ensures var o := xs[k].s.swarm.conns[p].out;
            var log := DeliveredTo(xs[k].h, p) + o.buffer;
            var n := Opening(log);
            && W.Wf(W.OnWire(o))
            && var bytes := Taken(xs, acts, p, k) + W.Remainder(W.OnWire(o));
            && Join(W.Encoded(log[..n])) <= bytes
            && var read := Drain(bytes[|Join(W.Encoded(log[..n]))|..]);
            if t.Count() <= MAX_READABLE_PIECES || (forall m :: m in log ==> !m.BitfieldMsg?)
            then read == Drained(Bodies(log[n..]), [], false)
            else read.failed
  {
    hide Inv, Next, Init, Readable, Drain, Mirrored, Taken;
    WireCarriesMessages(t, xs, acts, k, p);
    RunInv(t, xs, acts, k);
    var log := DeliveredTo(xs[k].h, p) + xs[k].s.swarm.conns[p].out.buffer;
    ReadAfter(t, xs[k], p, log);
  }

  // how many handshakes the log begins with
  function Opening(log: seq<Msg>): (n: nat)
    ensures n <= |log|
  {
    if log != [] && log[0].Handshake? then 1 else 0
  }

  lemma ReadAfter(t: Torrent, x: State, p: nat, log: seq<Msg>)
    requires Inv(t, x) && p in x.s.swarm.conns && log == DeliveredTo(x.h, p) + x.s.swarm.conns[p].out.buffer
    requires HandshakeFirst(log)
    ensures var n, bytes := Opening(log), Join(W.Encoded(log));
            && Join(W.Encoded(log[..n])) <= bytes
            && var read := Drain(bytes[|Join(W.Encoded(log[..n]))|..]);
            if t.Count() <= MAX_READABLE_PIECES || (forall m :: m in log ==> !m.BitfieldMsg?)
            then read == Drained(Bodies(log[n..]), [], false)
            else read.failed
  {
    hide Inv, Readable, Drain, HandshakeFirst, Sized;
    var n, small := Opening(log), t.Count() <= MAX_READABLE_PIECES;
    RestOfLog(log);
    RestReadable(t, x, p, log);
    ReadRest(log[n..], small);
    AfterHandshake(log, n);
  }

  // past the handshake there is none, and no bitfield is skipped
  lemma RestOfLog(log: seq<Msg>)
    requires HandshakeFirst(log)
    ensures var rest := log[Opening(log)..];
            && (forall m :: m in rest ==> m in log && !m.Handshake?)
            && ((forall m :: m in log ==> !m.BitfieldMsg?) <==> (forall m :: m in rest ==> !m.BitfieldMsg?))
  {
    var n := Opening(log);
    assert log == log[..n] + log[n..];
  }

  lemma RestReadable(t: Torrent, x: State, p: nat, log: seq<Msg>)
    requires Inv(t, x) && p in x.s.swarm.conns && log == DeliveredTo(x.h, p) + x.s.swarm.conns[p].out.buffer
    requires HandshakeFirst(log)
    ensures var rest := log[Opening(log)..];
            forall j :: 0 <= j < |rest| ==>
              (Readable(rest[j]) <==> !rest[j].BitfieldMsg? || t.Count() <= MAX_READABLE_PIECES) && Sized(rest[j])
  {
    hide Inv, Readable, HandshakeFirst;
    RestOfLog(log);
    var rest := log[Opening(log)..];
    forall j | 0 <= j < |rest|
      ensures (Readable(rest[j]) <==> !rest[j].BitfieldMsg? || t.Count() <= MAX_READABLE_PIECES) && Sized(rest[j])
    {
      assert rest[j] in rest;
      AllReadable(t, x, p, rest[j]);
      if rest[j].BitfieldMsg? { BitfieldSize(t, x, p, rest[j]); }
    }
  }

  ghost predicate Sized(m: Msg)
  {
    m.BitfieldMsg? ==> |m.bytes| < TWO_32 - 1
  }

  lemma ReadRest(msgs: seq<Msg>, small: bool)
    requires forall j :: 0 <= j < |msgs| ==> (Readable(msgs[j]) <==> !msgs[j].BitfieldMsg? || small) && Sized(msgs[j])
    ensures var read := Drain(Join(W.Encoded(msgs)));
            if small || (forall m :: m in msgs ==> !m.BitfieldMsg?) then read == Drained(Bodies(msgs), [], false)
            else read.failed
  {
    hide Readable, Drain;
    if small || (forall m :: m in msgs ==> !m.BitfieldMsg?) {
      DrainEncoded(msgs);
    } else {
      var k := FirstBitfield(msgs);
      TooLong(msgs, k);
    }
  }

  lemma BitfieldSize(t: Torrent, x: State, p: nat, m: Msg)
    requires Inv(t, x) && p in x.s.swarm.conns && m.BitfieldMsg?
    requires m in DeliveredTo(x.h, p) + x.s.swarm.conns[p].out.buffer
    ensures |m.bytes| < TWO_32 - 1
  {
    assert ConnOk(t, x.s, DeliveredTo(x.h, p), p, x.s.swarm.conns[p]);
    ScanBitfields(DeliveredTo(x.h, p) + x.s.swarm.conns[p].out.buffer, t.Count(), m);
  }

  lemma FirstBitfield(msgs: seq<Msg>) returns (k: nat)
    requires exists m :: m in msgs && m.BitfieldMsg?
    ensures k < |msgs| && msgs[k].BitfieldMsg? && forall j :: 0 <= j < k ==> !msgs[j].BitfieldMsg?
  {
    k := 0;
    while !msgs[k].BitfieldMsg?
      invariant k < |msgs| && forall j :: 0 <= j < k ==> !msgs[j].BitfieldMsg?
      decreases |msgs| - k
    {
      k := k + 1;
    }
  }

  // the bytes after the first n messages are those of the others
  lemma AfterHandshake(log: seq<Msg>, n: nat)
    requires n <= |log|
    ensures var bytes := Join(W.Encoded(log));
            && Join(W.Encoded(log[..n])) <= bytes
            && bytes[|Join(W.Encoded(log[..n]))|..] == Join(W.Encoded(log[n..]))
  {
    var front, rest := W.Encoded(log[..n]), W.Encoded(log[n..]);
    assert W.Encoded(log) == front + rest;
    W.JoinAppend(front, rest);
    assert (Join(front) + Join(rest))[|Join(front)|..] == Join(rest);
  }
}
