// What a peer is told, over whole runs: the stream of a connection, blocks
// served aside, is a script that the steps of the run dictate message by message.
module Speech {
  import opened Types
  import opened Torrents
  import opened Wire
  import opened Bitfields
  import opened Swarms
  import opened Engine
  import opened Invariants
  import opened Dispatching
  import opened Arrivals
  import opened Runs
  import opened Guarantees
  import opened Waiting
  import O = Outboxes
  import P = Pieces
  import B = Bans
  import W = WriteQueues
  import S = Streams

  // everything said on the connection, delivered or queued
  function LogOf(x: State, p: nat): seq<Msg>
    requires p in x.s.swarm.conns
  {
    DeliveredTo(x.h, p) + x.s.swarm.conns[p].out.buffer
  }

  // the messages other than blocks
  function Plain(log: seq<Msg>): seq<Msg>
  {
    if log == [] then []
    else Plain(log[..|log| - 1]) + (if log[|log| - 1].PieceMsg? then [] else [log[|log| - 1]])
  }

  lemma PlainOne(log: seq<Msg>, m: Msg)
    ensures Plain(log + [m]) == Plain(log) + (if m.PieceMsg? then [] else [m])
  {
    assert (log + [m])[..|log|] == log;
  }

  lemma {:induction false} PlainAppend(a: seq<Msg>, b: seq<Msg>)
    ensures Plain(a + b) == Plain(a) + Plain(b)
    decreases |b|
  {
    if b == [] {
      assert a + b == a;
    } else {
      var front, last := b[..|b| - 1], b[|b| - 1];
      assert a + b == (a + front) + [last] && b == front + [last];
      PlainOne(a + front, last);
      PlainOne(front, last);
      PlainAppend(a, front);
      W.Regroup(Plain(a), Plain(front), if last.PieceMsg? then [] else [last]);
    }
  }

  // taking a block back leaves the rest as it was
  lemma PlainWithout(log: seq<Msg>, k: nat)
    requires k < |log| && log[k].PieceMsg?
    ensures Plain(Without(log, k)) == Plain(log)
  {
    var front, rest := log[..k], log[k + 1..];
    assert log == (front + [log[k]]) + rest && Without(log, k) == front + rest;
    PlainAppend(front + [log[k]], rest);
    PlainOne(front, log[k]);
    PlainAppend(front, rest);
  }

  lemma PlainCancel(d: seq<Msg>, o: O.Outbox, r: BlockRequest)
    ensures Plain(d + O.Cancel(o, r.piece, r.offset, r.length).buffer) == Plain(d + o.buffer)
  {
    var k := O.CancelAt(o, r.piece, r.offset, r.length);
    if k < |o.buffer| {
      W.WithoutAppend(d, o.buffer, k);
      PlainWithout(d + o.buffer, |d| + k);
    }
  }

  lemma PlainEnqueue(d: seq<Msg>, o: O.Outbox, m: Msg)
    ensures Plain(d + O.Enqueue(o, m).buffer) == Plain(d + o.buffer) + (if m.PieceMsg? then [] else [m])
  {
    assert d + (o.buffer + [m]) == d + o.buffer + [m];
    PlainOne(d + o.buffer, m);
  }

  // ----- the script -----

  // what a newcomer is greeted with: what we own, that it may ask, and whether we
  // want anything
  ghost function Greeting(have: set<nat>, count: nat): seq<Msg>
  {
    [BitfieldMsg(Pack(have, count)), Control(1)]
    + (if forall i :: 0 <= i < count ==> i in have then [] else [Control(2)])
  }

  // what a step has us say to p
  ghost function Said(t: Torrent, x: State, a: Action, y: State, p: nat): seq<Msg>
  {
    if p !in x.s.swarm.conns then
      if a.FinishHandshake? && p == x.s.swarm.nextId && a.reply.Some? then [a.reply.value] else []
    else match a
      case KeepAliveTo(q) => if q == p then [KeepAlive] else []
      case Schedule(q, _, _, req) => if q == p then [RequestMsg(req)] else []
      case DispatchNext(_) =>
        if x.s.queue == [] then []
        else (match x.s.queue[0]
              case Joined(q) => if q == p then Greeting(x.s.pieces.have, t.Count()) else []
              case PieceArrived(_, block) =>
                if block.piece in y.s.pieces.have && block.piece !in x.s.pieces.have then [Have(block.piece)] else []
              case _ => [])
      case _ => []
  }

  ghost function Script(t: Torrent, xs: seq<State>, acts: seq<Action>, p: nat, k: nat): seq<Msg>
    requires k <= |acts| < |xs|
  {
    if k == 0 then [] else Script(t, xs, acts, p, k - 1) + Said(t, xs[k - 1], acts[k - 1], xs[k], p)
  }

  // ----- one step -----

  // d and o to d and o' says these messages, blocks aside
  ghost predicate Adds(d: seq<Msg>, o: O.Outbox, o': O.Outbox, more: seq<Msg>)
  {
    Plain(d + o'.buffer) == Plain(d + o.buffer) + more
  }

  lemma AddsNothing(d: seq<Msg>, o: O.Outbox)
    ensures Adds(d, o, o, [])
  {
  }

  lemma GreetedSays(t: Torrent, d: seq<Msg>, c: Conn, ps: P.Pieces)
    requires t.Valid() && P.Wf(t, ps)
    ensures Adds(d, c.out, Greeted(t, c, ps.have, ps.haveCount).out, Greeting(ps.have, t.Count()))
  {
    hide Pack, P.Wf, Plain;
    P.CountersExact(t, ps);
    var m := BitfieldMsg(Pack(ps.have, t.Count()));
    var o1 := O.Enqueue(c.out, m);
    var o2 := O.Enqueue(o1, Control(1));
    PlainEnqueue(d, c.out, m);
    PlainEnqueue(d, o1, Control(1));
    PlainEnqueue(d, o2, Control(2));
  }

  lemma JoinedSays(t: Torrent, s: Session, d: seq<Msg>, from: nat, p: nat)
    requires Shaped(t, s) && p in s.swarm.conns
    ensures var conns := OnJoined(t, s, from).swarm.conns;
            p in conns && Adds(d, s.swarm.conns[p].out, conns[p].out,
                               if from == p then Greeting(s.pieces.have, t.Count()) else [])
  {
    hide Greeted, Greeting, Adds, P.Wf;
    AddsNothing(d, s.swarm.conns[p].out);
    if from in s.swarm.conns {
      GreetIs(t, s.(bans := B.OnJoin(s.bans, from, s.swarm.conns[from].host)), from);
      GreetedSays(t, d, s.swarm.conns[from], s.pieces);
    }
  }

  // the step's block completes a piece that was not owned
  ghost predicate Completes(s: Session, block: Block, s': Session)
  {
    block.piece in s'.pieces.have && block.piece !in s.pieces.have
  }

  lemma FiledSays(t: Torrent, s: Session, d: seq<Msg>, from: nat, block: Block, p: nat)
    requires Shaped(t, s) && p in s.swarm.conns
    ensures var s1 := FilePiece(t, s, from, block).0;
            p in s1.swarm.conns && Adds(d, s.swarm.conns[p].out, s1.swarm.conns[p].out,
                                        if Completes(s, block, s1) then [Have(block.piece)] else [])
  {
    hide B.OnPieceVerified, B.OnPieceFailed, Adds, O.Enqueue, P.Wf, P.Stored;
    AddsNothing(d, s.swarm.conns[p].out);
    HaveSays(d, s.swarm.conns[p].out, block.piece);
  }

  lemma HaveSays(d: seq<Msg>, o: O.Outbox, i: nat)
    ensures Adds(d, o, O.Enqueue(o, Have(i)), [Have(i)])
  {
    PlainEnqueue(d, o, Have(i));
  }

  lemma PieceSays(t: Torrent, s: Session, d: seq<Msg>, from: nat, block: Block, order: Host -> seq<nat>, p: nat)
    requires Shaped(t, s) && p in OnPiece(t, s, from, block, order).swarm.conns
    ensures var s' := OnPiece(t, s, from, block, order);
            p in s.swarm.conns && Adds(d, s.swarm.conns[p].out, s'.swarm.conns[p].out,
                                       if Completes(s, block, s') then [Have(block.piece)] else [])
  {
    hide FilePiece, BanHosts, Shaped, Adds;
    var (s1, hosts) := FilePiece(t, s, from, block);
    S.BansKeepConns(s1, hosts, order);
    FilePieceKeeps(t, s, from, block);
    FiledSays(t, s, d, from, block, p);
    BansKeepDisk(s1, hosts, order);
  }

  lemma AskedSays(t: Torrent, s: Session, d: seq<Msg>, from: nat, req: BlockRequest, p: nat)
    requires Shaped(t, s) && p in OnAsked(t, s, from, req).swarm.conns
    ensures p in s.swarm.conns && Adds(d, s.swarm.conns[p].out, OnAsked(t, s, from, req).swarm.conns[p].out, [])
  {
    hide Plain;
    var o, o' := s.swarm.conns[p].out, OnAsked(t, s, from, req).swarm.conns[p].out;
    if o' != o { PlainEnqueue(d, o, o'.buffer[|o.buffer|]); }
  }

  lemma DispatchSays(t: Torrent, x: State, order: Host -> seq<nat>, y: State, p: nat)
    requires Shaped(t, x.s) && DispatchStep(t, x, order, y) && p in y.s.swarm.conns
    ensures p in x.s.swarm.conns && DeliveredTo(y.h, p) == DeliveredTo(x.h, p)
    ensures Adds(DeliveredTo(x.h, p), x.s.swarm.conns[p].out, y.s.swarm.conns[p].out,
                 Said(t, x, DispatchNext(order), y, p))
  {
    hide OnPiece, OnJoined, OnAsked, Shaped, ArrivalsWith, Adds, Greeting;
    var s, d := x.s.(queue := x.s.queue[1..]), DeliveredTo(x.h, p);
    S.TailShaped(t, x.s);
    match x.s.queue[0]
    case Joined(from) =>
      S.KeysKept(t, s, from);
      JoinedSays(t, s, d, from, p);
    case PieceArrived(from, block) => PieceSays(t, s, d, from, block, order, p);
    case BlockAsked(from, req) => AskedSays(t, s, d, from, req, p);
    case _ => AddsNothing(d, x.s.swarm.conns[p].out);
  }

  lemma MessageSays(sw: Swarm, q: seq<Event>, d: seq<Msg>, from: nat, msg: Bytes, p: nat)
    requires p in sw.conns
    ensures var conns := HandleMessage(sw, q, from, msg).swarm.conns;
            p in conns && Adds(d, sw.conns[p].out, conns[p].out, [])
  {
    hide HandleMessage, O.Cancel, Plain;
    var r := S.MessageCancels(sw, q, from, msg, p);
    if r.Some? { PlainCancel(d, sw.conns[p].out, r.value); }
  }

  // sending moves a message from the queue to the delivered ones
  lemma TransmitSays(x: State, from: nat, w: nat, y: State, p: nat)
    requires TransmitStep(x, from, w, y) && p in x.s.swarm.conns
    ensures p in y.s.swarm.conns && LogOf(y, p) == LogOf(x, p)
  {
    var o := x.s.swarm.conns[p].out;
    if p == from && |O.Send(o, w).buffer| != |o.buffer| {
      assert DeliveredTo(x.h, p) + [o.buffer[0]] + o.buffer[1..] == DeliveredTo(x.h, p) + o.buffer;
    }
  }

  lemma EnqueueSays(d: seq<Msg>, o: O.Outbox, m: Msg)
    requires !m.PieceMsg?
    ensures Adds(d, o, O.Enqueue(o, m), [m])
  {
    PlainEnqueue(d, o, m);
  }

  // a step that keeps the connection adds to its stream what the script says
  lemma StepSays(t: Torrent, x: State, a: Action, y: State, p: nat)
    requires Inv(t, x) && Shaped(t, x.s) && Next(t, x, a, y) && p in x.s.swarm.conns && p in y.s.swarm.conns
    ensures Plain(LogOf(y, p)) == Plain(LogOf(x, p)) + Said(t, x, a, y, p)
  {
    hide Inv, Shaped, Dispatch, HandleMessage, P.PickStep, Plain, O.Enqueue, O.Send, Expire, Greeting;
    var d, o := DeliveredTo(x.h, p), x.s.swarm.conns[p].out;
    S.OutboxOk(t, x, p);
    match a
    case Deliver(from, msg) => MessageSays(x.s.swarm, x.s.queue, d, from, msg, p);
    case Transmit(from, w) => TransmitSays(x, from, w, y, p);
    case DispatchNext(order) => DispatchSays(t, x, order, y, p);
    case KeepAliveTo(_) => EnqueueSays(d, o, KeepAlive);
    case Schedule(_, _, _, req) => EnqueueSays(d, o, RequestMsg(req));
    case ExpireAt(from, cutoff) => S.ExpiredOut(x.s, from, cutoff, p);
    case _ =>
  }

  // ----- whole runs -----

  // the script is what has been said while the connection lasts; before it there is none
  ghost predicate ScriptAt(x: State, p: nat, script: seq<Msg>)
  {
    if p in x.s.swarm.conns then Plain(LogOf(x, p)) == script
    else p >= x.s.swarm.nextId ==> script == []
  }

  lemma ScriptStarts(t: Torrent, x: State, a: Action, y: State, p: nat)
    requires Inv(t, x) && Shaped(t, x.s) && Next(t, x, a, y) && p in y.s.swarm.conns && p !in x.s.swarm.conns
    ensures p == x.s.swarm.nextId && Plain(LogOf(y, p)) == Said(t, x, a, y, p)
  {
    hide Inv, Shaped, Dispatch, HandleMessage, P.PickStep, Plain;
    S.Newcomer(t, x, a, y, p);
    S.NothingDelivered(t, x, p);
    EmptyPlain();
    if a.reply.Some? {
      PlainEnqueue([], O.EMPTY, a.reply.value);
    }
  }

  lemma EmptyPlain()
    ensures Plain([] + O.EMPTY.buffer) == []
  {
  }

  lemma ScriptStep(t: Torrent, x: State, a: Action, y: State, p: nat, script: seq<Msg>)
    requires Inv(t, x) && Shaped(t, x.s) && Next(t, x, a, y) && ScriptAt(x, p, script)
    ensures ScriptAt(y, p, script + Said(t, x, a, y, p))
  {
    hide Inv, Shaped, Next, Plain;
    S.IdsGrow(t, x, a, y);
    if p in y.s.swarm.conns {
      if p in x.s.swarm.conns {
        StepSays(t, x, a, y, p);
      } else {
        ScriptStarts(t, x, a, y, p);
      }
    } else if p in x.s.swarm.conns {
      S.OutboxOk(t, x, p);
    } else {
      NobodyTold(t, x, a, y, p);
    }
  }

  lemma NobodyTold(t: Torrent, x: State, a: Action, y: State, p: nat)
    requires Shaped(t, x.s) && Next(t, x, a, y) && p !in x.s.swarm.conns && p !in y.s.swarm.conns
    ensures Said(t, x, a, y, p) == []
  {
    hide Shaped, Dispatch, HandleMessage;
  }

  lemma {:induction false} RunScript(t: Torrent, xs: seq<State>, acts: seq<Action>, k: nat, p: nat)
    requires IsRun(t, xs, acts) && k < |xs|
    ensures ScriptAt(xs[k], p, Script(t, xs, acts, p, k))
  {
    hide Inv, Next, ScriptAt, Said, Init;
    if k == 0 {
      NoScript(t, xs[0], p);
    } else {
      RunScript(t, xs, acts, k - 1, p);
      RunInv(t, xs, acts, k - 1);
      InvShaped(t, xs[k - 1]);
      assert Moves(t, xs[k - 1], acts[k - 1], xs[k - 1 + 1]);
      ScriptStep(t, xs[k - 1], acts[k - 1], xs[k], p, Script(t, xs, acts, p, k - 1));
    }
  }

  lemma NoScript(t: Torrent, x: State, p: nat)
    requires Init(t, x)
    ensures ScriptAt(x, p, [])
  {
  }

  // In every run, what has been said on a live connection, blocks aside, is what
  // the steps so far call for and nothing else: our handshake if it was owed, the
  // greeting, one have message for every piece completed since the connection was
  // made, the requests of the scheduler and the keep-alives, in that order of steps.
  lemma StreamIsScript(t: Torrent, xs: seq<State>, acts: seq<Action>, k: nat, p: nat)
    requires IsRun(t, xs, acts) && k < |xs| && p in xs[k].s.swarm.conns
    ensures Plain(LogOf(xs[k], p)) == Script(t, xs, acts, p, k)
  {
    hide Moves, Init;
    RunScript(t, xs, acts, k, p);
  }

  // ----- requests -----

  // the requests among these messages
  function Requests(log: seq<Msg>): seq<BlockRequest>
  {
    if log == [] then []
    else Requests(log[..|log| - 1]) + (if log[|log| - 1].RequestMsg? then [log[|log| - 1].req] else [])
  }

  // what the scheduler has asked p for in the first k steps
  function AskedOf(acts: seq<Action>, p: nat, k: nat): seq<BlockRequest>
    requires k <= |acts|
  {
    if k == 0 then []
    else AskedOf(acts, p, k - 1) + (if acts[k - 1].Schedule? && acts[k - 1].peer == p then [acts[k - 1].req] else [])
  }

  lemma RequestsOne(log: seq<Msg>, m: Msg)
    ensures Requests(log + [m]) == Requests(log) + (if m.RequestMsg? then [m.req] else [])
  {
    assert (log + [m])[..|log|] == log;
  }

  lemma {:induction false} RequestsArePlain(log: seq<Msg>)
    ensures Requests(Plain(log)) == Requests(log)
  {
    if log == [] {
    } else {
      var front, last := log[..|log| - 1], log[|log| - 1];
      RequestsArePlain(front);
      if last.PieceMsg? {
        assert Plain(log) == Plain(front);
      } else {
        RequestsOne(Plain(front), last);
      }
    }
  }

  lemma {:induction false} RequestsAppend(a: seq<Msg>, b: seq<Msg>)
    ensures Requests(a + b) == Requests(a) + Requests(b)
    decreases |b|
  {
    if b == [] {
      assert a + b == a;
    } else {
      var front, last := b[..|b| - 1], b[|b| - 1];
      assert a + b == (a + front) + [last] && b == front + [last];
      RequestsOne(a + front, last);
      RequestsOne(front, last);
      RequestsAppend(a, front);
      W.Regroup(Requests(a), Requests(front), if last.RequestMsg? then [last.req] else []);
    }
  }

  lemma RequestsSaid(t: Torrent, x: State, a: Action, y: State, p: nat)
    requires Shaped(t, x.s) && Next(t, x, a, y)
    ensures Requests(Said(t, x, a, y, p)) == (if a.Schedule? && a.peer == p then [a.req] else [])
  {
    hide Shaped, Dispatch, HandleMessage, P.PickStep, Pack, Requests;
    assert Requests([]) == [] && (forall m: Msg :: Requests([m]) == if m.RequestMsg? then [m.req] else []) by {
      OneRequest();
    }
    if Said(t, x, a, y, p) == Greeting(x.s.pieces.have, t.Count()) {
      GreetingAsksNothing(x.s.pieces.have, t.Count());
    }
  }

  lemma OneRequest()
    ensures Requests([]) == [] && forall m: Msg :: Requests([m]) == if m.RequestMsg? then [m.req] else []
  {
    forall m: Msg ensures Requests([m]) == if m.RequestMsg? then [m.req] else [] {
      RequestsOne([], m);
      assert [] + [m] == [m];
    }
  }

  lemma GreetingAsksNothing(have: set<nat>, count: nat)
    ensures Requests(Greeting(have, count)) == []
  {
    var m: Msg := BitfieldMsg(Pack(have, count));
    OneRequest();
    RequestsOne([m], Control(1));
    RequestsOne([m, Control(1)], Control(2));
    assert [m] + [Control(1)] == [m, Control(1)];
  }

  lemma {:induction false} ScriptRequests(t: Torrent, xs: seq<State>, acts: seq<Action>, k: nat, p: nat)
    requires IsRun(t, xs, acts) && k < |xs|
    ensures Requests(Script(t, xs, acts, p, k)) == AskedOf(acts, p, k)
  {
    hide Next, Said, Init, Requests;
    if k == 0 {
      OneRequest();
    } else {
      ScriptRequests(t, xs, acts, k - 1, p);
      assert Moves(t, xs[k - 1], acts[k - 1], xs[k - 1 + 1]);
      RequestsAppend(Script(t, xs, acts, p, k - 1), Said(t, xs[k - 1], acts[k - 1], xs[k], p));
      RequestsSaid(t, xs[k - 1], acts[k - 1], xs[k], p);
    }
  }

  // ----- pending requests -----

  lemma {:induction false} OpenedIsAsked(acts: seq<Action>, p: nat, j: nat, k: nat)
    requires j < k <= |acts| && acts[j].Schedule? && acts[j].peer == p
    ensures acts[j].req in AskedOf(acts, p, k)
    decreases k
  {
    if j < k - 1 {
      OpenedIsAsked(acts, p, j, k - 1);
    }
  }

  lemma {:induction false} RequestsIn(log: seq<Msg>, r: BlockRequest)
    requires r in Requests(log)
    ensures RequestMsg(r) in log
  {
    if log != [] && RequestMsg(r) != log[|log| - 1] {
      RequestsIn(log[..|log| - 1], r);
    }
  }

  // In every run the requests in a live connection's stream are exactly those the
  // scheduler made to this peer, in order; so every request the peer is waited for
  // has been put to it in these very terms.
  lemma RequestsAreSent(t: Torrent, xs: seq<State>, acts: seq<Action>, k: nat, p: nat)
    requires IsRun(t, xs, acts) && k < |xs| && p in xs[k].s.swarm.conns
    ensures Requests(LogOf(xs[k], p)) == AskedOf(acts, p, k)
    ensures forall r :: r in xs[k].s.swarm.conns[p].pending ==> RequestMsg(r.req) in LogOf(xs[k], p)
  {
    hide Moves, Init, Requests;
    var log := LogOf(xs[k], p);
    StreamIsScript(t, xs, acts, k, p);
    ScriptRequests(t, xs, acts, k, p);
    RequestsArePlain(log);
    forall r | r in xs[k].s.swarm.conns[p].pending ensures RequestMsg(r.req) in log {
      PendingIsOpen(t, xs, acts, k, p, r);
      var j :| 0 <= j < k && Opens(acts[j], p, r);
      OpenedIsAsked(acts, p, j, k);
      RequestsIn(log, r.req);
    }
  }

  // So a block is only ever taken as the answer to a request in the stream.
  lemma OnlyAnswersAreTaken(t: Torrent, xs: seq<State>, acts: seq<Action>, k: nat, p: nat, block: Block)
    requires IsRun(t, xs, acts) && k < |acts| && acts[k].Deliver? && acts[k].peer == p
    requires PieceArrived(p, block) in xs[k + 1].s.queue && PieceArrived(p, block) !in xs[k].s.queue
    ensures p in xs[k].s.swarm.conns
    ensures RequestMsg(BlockRequest(block.piece, block.offset, |block.data|)) in LogOf(xs[k], p)
  {
    hide Init, HandleMessage;
    assert Moves(t, xs[k], acts[k], xs[k + 1]);
    var r := TakenWasPending(xs[k].s.swarm, xs[k].s.queue, p, acts[k].msg, block);
    RequestsAreSent(t, xs, acts, k, p);
  }

  lemma TakenWasPending(sw: Swarm, q: seq<Event>, p: nat, msg: Bytes, block: Block) returns (r: PendingRequest)
    requires PieceArrived(p, block) in HandleMessage(sw, q, p, msg).queue && PieceArrived(p, block) !in q
    ensures p in sw.conns && r in sw.conns[p].pending && r.req == BlockRequest(block.piece, block.offset, |block.data|)
  {
    hide FromBytes, Bumped, O.Cancel, ReadBe32;
    var pending := sw.conns[p].pending;
    r := pending[FindPending(pending, BlockRequest(block.piece, block.offset, |block.data|))];
  }
}
