// What one connection amounts to, over whole runs: what is known of the peer is
// what its messages said, and what the peer is told is what the steps call for.
module Conversations {
  import opened Types
  import opened Torrents
  import opened Wire
  import opened Bitfields
  import opened Swarms
  import opened Engine
  import opened Invariants
  import opened Dispatching
  import opened Arrivals
  import opened Runs
  import O = Outboxes
  import P = Pieces
  import B = Bans
  import S = Streams

  // ----- which fields a step may touch -----

  // c' differs from c in what has been said to the peer only
  ghost predicate Spoke(c: Conn, c': Conn)
  {
    c' == c.(out := c'.out, amChoking := c'.amChoking, amInterested := c'.amInterested)
  }

  lemma FiledSpoke(t: Torrent, s: Session, from: nat, block: Block, p: nat)
    requires Shaped(t, s) && p in FilePiece(t, s, from, block).0.swarm.conns
    ensures p in s.swarm.conns && Spoke(s.swarm.conns[p], FilePiece(t, s, from, block).0.swarm.conns[p])
  {
    hide P.OnBlock, B.OnPieceVerified, B.OnPieceFailed, O.Enqueue;
  }

  lemma JoinedSpoke(t: Torrent, s: Session, from: nat, p: nat)
    requires p in OnJoined(t, s, from).swarm.conns
    ensures p in s.swarm.conns && Spoke(s.swarm.conns[p], OnJoined(t, s, from).swarm.conns[p])
  {
    hide Pack, O.Enqueue;
    if from in s.swarm.conns {
      GreetIs(t, s.(bans := B.OnJoin(s.bans, from, s.swarm.conns[from].host)), from);
    }
  }

  lemma HandledSpoke(t: Torrent, s: Session, ev: Event, order: Host -> seq<nat>, p: nat)
    requires Shaped(t, s) && p in Handle(t, s, ev, order).swarm.conns
    ensures p in s.swarm.conns && Spoke(s.swarm.conns[p], Handle(t, s, ev, order).swarm.conns[p])
  {
    hide FilePiece, BanHosts, OnJoined, Shaped, Spoke;
    match ev
    case Joined(from) => JoinedSpoke(t, s, from, p);
    case PieceArrived(from, block) =>
      var (s1, hosts) := FilePiece(t, s, from, block);
      S.BansKeepConns(s1, hosts, order);
      FiledSpoke(t, s, from, block, p);
    case BlockAsked(from, req) => AskedSpoke(t, s, from, req, p);
    case _ => SpokeNothing(s.swarm.conns[p]);
  }

  lemma SpokeNothing(c: Conn)
    ensures Spoke(c, c)
  {
  }

  lemma AskedSpoke(t: Torrent, s: Session, from: nat, req: BlockRequest, p: nat)
    requires Shaped(t, s) && p in OnAsked(t, s, from, req).swarm.conns
    ensures p in s.swarm.conns && Spoke(s.swarm.conns[p], OnAsked(t, s, from, req).swarm.conns[p])
  {
    hide O.Enqueue;
  }

  // what is known of the peer from its messages
  datatype Impression = Impression(choking: bool, interested: bool, gotBitfield: bool, has: set<nat>)

  function ImpressionOf(c: Conn): Impression
  {
    Impression(c.peerChoking, c.peerInterested, c.gotBitfield, c.has)
  }

  // messages of other peers change nothing here
  lemma OthersMessages(sw: Swarm, q: seq<Event>, from: nat, msg: Bytes, p: nat)
    requires p in sw.conns && p != from
    ensures var conns := HandleMessage(sw, q, from, msg).swarm.conns; p in conns && conns[p] == sw.conns[p]
  {
    hide FromBytes, Bumped, O.Cancel, ReadBe32;
  }

  // only the peer's own messages change what is known of it
  lemma Unheard(t: Torrent, x: State, a: Action, y: State, p: nat)
    requires Shaped(t, x.s) && Next(t, x, a, y) && p in x.s.swarm.conns && p in y.s.swarm.conns
    requires p < x.s.swarm.nextId && !(a.Deliver? && a.peer == p)
    ensures ImpressionOf(y.s.swarm.conns[p]) == ImpressionOf(x.s.swarm.conns[p])
  {
    hide Handle, HandleMessage, Shaped, P.PickStep, O.Send, O.Enqueue;
    match a
    case Deliver(from, msg) => OthersMessages(x.s.swarm, x.s.queue, from, msg, p);
    case DispatchNext(order) =>
      S.TailShaped(t, x.s);
      HandledSpoke(t, x.s.(queue := x.s.queue[1..]), x.s.queue[0], order, p);
    case _ =>
  }

  // ----- what the peer has said -----

  // the messages of p, in order, that found it connected
  ghost function HeardFrom(xs: seq<State>, acts: seq<Action>, p: nat, k: nat): seq<Bytes>
    requires k <= |acts| <= |xs|
  {
    if k == 0 then [] else HeardFrom(xs, acts, p, k - 1) + HeardIn(xs[k - 1], acts[k - 1], p)
  }

  ghost function HeardIn(x: State, a: Action, p: nat): seq<Bytes>
  {
    if a.Deliver? && a.peer == p && p in x.s.swarm.conns then [a.msg] else []
  }

  predicate Begins(msg: Bytes, id: Byte)
  {
    msg != [] && msg[0] == id
  }

  // 'yes' has been said, and not 'no' since
  ghost predicate LastSaid(heard: seq<Bytes>, yes: Byte, no: Byte)
  {
    exists j :: 0 <= j < |heard| && Begins(heard[j], yes) && forall m :: j < m < |heard| ==> !Begins(heard[m], no)
  }

  // a have message for a piece of the torrent
  predicate Announces(msg: Bytes, count: nat, i: nat)
  {
    |msg| == 5 && msg[0] == 4 && ReadBe32(msg[1..]) == i && i < count
  }

  // message b is the first bitfield, and well-formed
  ghost predicate IsBitfield(heard: seq<Bytes>, b: nat, count: nat)
  {
    && b < |heard| && Begins(heard[b], 5) && (forall m :: 0 <= m < b ==> !Begins(heard[m], 5))
    && FromBytes(heard[b][1..], count).Some?
  }

  // message j says that the peer has piece i
  ghost predicate Names(heard: seq<Bytes>, j: nat, count: nat, i: nat)
  {
    && j < |heard|
    && (Announces(heard[j], count, i)
        || (IsBitfield(heard, j, count) && i in FromBytes(heard[j][1..], count).value))
  }

  // some message names the piece, and no bitfield has replaced it since
  ghost predicate HasSaid(heard: seq<Bytes>, count: nat, i: nat)
  {
    exists j :: 0 <= j < |heard| && Names(heard, j, count, i)
                && forall b :: j < b < |heard| ==> !IsBitfield(heard, b, count)
  }

  ghost predicate Understood(heard: seq<Bytes>, count: nat, c: Impression)
  {
    && (!c.choking <==> LastSaid(heard, 1, 0))
    && (c.interested <==> LastSaid(heard, 2, 3))
    && (c.gotBitfield <==> exists j :: 0 <= j < |heard| && Begins(heard[j], 5))
    && (forall i :: i in c.has <==> HasSaid(heard, count, i))
  }

  lemma LastSaidMore(heard: seq<Bytes>, msg: Bytes, yes: Byte, no: Byte)
    requires yes != no
    ensures LastSaid(heard + [msg], yes, no) <==>
            Begins(msg, yes) || (LastSaid(heard, yes, no) && !Begins(msg, no))
  {
    var more := heard + [msg];
    if LastSaid(heard, yes, no) && !Begins(msg, no) {
      var j :| 0 <= j < |heard| && Begins(heard[j], yes) && forall m :: j < m < |heard| ==> !Begins(heard[m], no);
      assert Begins(more[j], yes);
    }
    if Begins(msg, yes) {
      assert Begins(more[|heard|], yes);
    }
    if LastSaid(more, yes, no) && !Begins(msg, yes) {
      var j :| 0 <= j < |more| && Begins(more[j], yes) && forall m :: j < m < |more| ==> !Begins(more[m], no);
      assert Begins(heard[j], yes) && !Begins(more[|heard|], no);
      forall m | j < m < |heard| ensures !Begins(heard[m], no) {
        assert !Begins(more[m], no);
      }
    }
  }

  lemma BitfieldsMore(heard: seq<Bytes>, msg: Bytes, count: nat, b: nat)
    requires b < |heard|
    ensures IsBitfield(heard + [msg], b, count) <==> IsBitfield(heard, b, count)
  {
    var more := heard + [msg];
    assert forall m :: 0 <= m <= b ==> more[m] == heard[m];
  }

  lemma HasSaidMore(heard: seq<Bytes>, msg: Bytes, count: nat, i: nat)
    ensures var more := heard + [msg];
            HasSaid(more, count, i) <==>
            Names(more, |heard|, count, i) || (HasSaid(heard, count, i) && !IsBitfield(more, |heard|, count))
  {
    hide FromBytes, IsBitfield;
    var more := heard + [msg];
    forall b | 0 <= b < |heard| ensures IsBitfield(more, b, count) <==> IsBitfield(heard, b, count) {
      BitfieldsMore(heard, msg, count, b);
    }
    if HasSaid(heard, count, i) && !IsBitfield(more, |heard|, count) {
      var j :| 0 <= j < |heard| && Names(heard, j, count, i)
               && forall b :: j < b < |heard| ==> !IsBitfield(heard, b, count);
      assert Names(more, j, count, i);
    }
    if Names(more, |heard|, count, i) {
      assert HasSaid(more, count, i);
    }
    if HasSaid(more, count, i) && !Names(more, |heard|, count, i) {
      var j :| 0 <= j < |more| && Names(more, j, count, i)
               && forall b :: j < b < |more| ==> !IsBitfield(more, b, count);
      assert Names(heard, j, count, i);
    }
  }

  // the pieces known after a message, given those known before
  ghost predicate Learns(msg: Bytes, count: nat, c: Conn, c': Conn)
  {
    var replaced := Begins(msg, 5) && !c.gotBitfield && FromBytes(msg[1..], count).Some?;
    forall i :: i in c'.has <==>
      || Announces(msg, count, i)
      || (if replaced then i in FromBytes(msg[1..], count).value else i in c.has)
  }

  lemma HeardHave(sw: Swarm, q: seq<Event>, p: nat, msg: Bytes)
    requires p in sw.conns && Begins(msg, 4)
    ensures var r := HandleHave(sw, q, p, msg[1..]);
            && p in r.swarm.conns && |r.swarm.frequency| == |sw.frequency|
            && var c, c' := sw.conns[p], r.swarm.conns[p];
            && c' == c.(has := c'.has) && Learns(msg, |sw.frequency|, c, c')
  {
    hide FromBytes, ReadBe32;
  }

  lemma HeardBitfield(sw: Swarm, q: seq<Event>, p: nat, msg: Bytes)
    requires p in sw.conns && Begins(msg, 5)
    ensures var r := HandleBitfield(sw, q, p, msg[1..]);
            && p in r.swarm.conns && |r.swarm.frequency| == |sw.frequency|
            && var c, c' := sw.conns[p], r.swarm.conns[p];
            && c' == c.(has := c'.has, gotBitfield := true) && Learns(msg, |sw.frequency|, c, c')
  {
    hide FromBytes, ReadBe32;
  }

  // requests, blocks and cancels tell nothing about the peer
  lemma HeardOther(sw: Swarm, q: seq<Event>, p: nat, payload: Bytes)
    requires p in sw.conns
    ensures var r := HandleRequest(sw, q, p, payload); r.swarm == sw
    ensures var r := HandlePiece(sw, q, p, payload);
            r.swarm.frequency == sw.frequency && p in r.swarm.conns
            && ImpressionOf(r.swarm.conns[p]) == ImpressionOf(sw.conns[p]) && r.swarm.conns[p].host == sw.conns[p].host
    ensures var r := HandleCancel(sw, q, p, payload);
            r.swarm.frequency == sw.frequency && p in r.swarm.conns
            && ImpressionOf(r.swarm.conns[p]) == ImpressionOf(sw.conns[p]) && r.swarm.conns[p].host == sw.conns[p].host
  {
    hide O.Cancel, ReadBe32, TripleOf, BlockOf;
  }

  // one message of the peer
  lemma HeardOne(sw: Swarm, q: seq<Event>, p: nat, msg: Bytes)
    requires p in sw.conns
    ensures var sw', count := HandleMessage(sw, q, p, msg).swarm, |sw.frequency|;
            && p in sw'.conns && |sw'.frequency| == count
            && var c, c' := sw.conns[p], sw'.conns[p];
            && c'.peerChoking == (Begins(msg, 0) || (c.peerChoking && !Begins(msg, 1)))
            && c'.peerInterested == (Begins(msg, 2) || (c.peerInterested && !Begins(msg, 3)))
            && c'.gotBitfield == (c.gotBitfield || Begins(msg, 5))
            && Learns(msg, count, c, c')
  {
    hide Learns, HandleHave, HandleBitfield, HandleRequest, HandlePiece, HandleCancel;
    var c := sw.conns[p];
    if Begins(msg, 4) {
      HeardHave(sw, q, p, msg);
    } else if Begins(msg, 5) {
      HeardBitfield(sw, q, p, msg);
    } else {
      LearnsNothing(msg, |sw.frequency|, c, HandleMessage(sw, q, p, msg).swarm.conns);
      if msg != [] && 6 <= msg[0] <= 8 { HeardOther(sw, q, p, msg[1..]); }
    }
  }

  lemma LearnsNothing(msg: Bytes, count: nat, c: Conn, conns: map<nat, Conn>)
    requires !Begins(msg, 4) && !Begins(msg, 5)
    ensures forall p :: p in conns && conns[p].has == c.has ==> Learns(msg, count, c, conns[p])
  {
  }

  lemma UnderstoodMore(heard: seq<Bytes>, msg: Bytes, sw: Swarm, q: seq<Event>, p: nat)
    requires p in sw.conns && Understood(heard, |sw.frequency|, ImpressionOf(sw.conns[p]))
    ensures var sw' := HandleMessage(sw, q, p, msg).swarm;
            && p in sw'.conns && |sw'.frequency| == |sw.frequency|
            && Understood(heard + [msg], |sw.frequency|, ImpressionOf(sw'.conns[p]))
  {
    hide HandleMessage, FromBytes, LastSaid, HasSaid;
    HeardOne(sw, q, p, msg);
    LastSaidMore(heard, msg, 1, 0);
    LastSaidMore(heard, msg, 2, 3);
    var count, more, c := |sw.frequency|, heard + [msg], sw.conns[p];
    SomeMore(heard, msg, 5);
    BitfieldNow(heard, msg, count, c.gotBitfield);
    forall i ensures i in HandleMessage(sw, q, p, msg).swarm.conns[p].has <==> HasSaid(more, count, i) {
      HasSaidMore(heard, msg, count, i);
    }
  }

  lemma SomeMore(heard: seq<Bytes>, msg: Bytes, id: Byte)
    ensures var more := heard + [msg];
            (exists j :: 0 <= j < |more| && Begins(more[j], id)) <==>
            (exists j :: 0 <= j < |heard| && Begins(heard[j], id)) || Begins(msg, id)
  {
    var more := heard + [msg];
    if j :| 0 <= j < |heard| && Begins(heard[j], id) { assert Begins(more[j], id); }
    if Begins(msg, id) { assert Begins(more[|heard|], id); }
  }

  lemma BitfieldNow(heard: seq<Bytes>, msg: Bytes, count: nat, got: bool)
    requires got <==> exists j :: 0 <= j < |heard| && Begins(heard[j], 5)
    ensures IsBitfield(heard + [msg], |heard|, count) <==> Begins(msg, 5) && !got && FromBytes(msg[1..], count).Some?
  {
    hide FromBytes;
    var more := heard + [msg];
    assert forall m :: 0 <= m < |heard| ==> more[m] == heard[m];
  }

  lemma NothingUnderstood(host: Host, count: nat)
    ensures Understood([], count, ImpressionOf(NewConn(host)))
  {
  }

  // the impression is right while the connection lasts; before it nothing was heard
  ghost predicate ImpressionAt(t: Torrent, x: State, p: nat, heard: seq<Bytes>)
  {
    if p in x.s.swarm.conns then Understood(heard, t.Count(), ImpressionOf(x.s.swarm.conns[p]))
    else p >= x.s.swarm.nextId ==> heard == []
  }

  lemma ImpressionStep(t: Torrent, x: State, a: Action, y: State, p: nat, heard: seq<Bytes>)
    requires Inv(t, x) && Shaped(t, x.s) && Next(t, x, a, y) && ImpressionAt(t, x, p, heard)
    ensures ImpressionAt(t, y, p, heard + HeardIn(x, a, p))
  {
    hide Inv, Shaped, Understood, Handle, HandleMessage, P.PickStep;
    S.IdsGrow(t, x, a, y);
    assert heard + [] == heard;
    if p in x.s.swarm.conns {
      S.OutboxOk(t, x, p);
      if a.Deliver? && a.peer == p {
        CountsShaped(t, x.s);
        UnderstoodMore(heard, a.msg, x.s.swarm, x.s.queue, p);
      } else if p in y.s.swarm.conns {
        Unheard(t, x, a, y, p);
      }
    } else if p in y.s.swarm.conns {
      NewImpression(t, x, a, y, p);
    }
  }

  lemma CountsShaped(t: Torrent, s: Session)
    requires Shaped(t, s)
    ensures |s.swarm.frequency| == t.Count()
  {
  }

  lemma NewImpression(t: Torrent, x: State, a: Action, y: State, p: nat)
    requires Shaped(t, x.s) && Next(t, x, a, y) && p in y.s.swarm.conns && p !in x.s.swarm.conns
    ensures p == x.s.swarm.nextId && Understood([], t.Count(), ImpressionOf(y.s.swarm.conns[p]))
  {
    hide Shaped, Understood, Handle, HandleMessage, P.PickStep;
    S.Newcomer(t, x, a, y, p);
    NothingUnderstood(x.s.swarm.handshaking[a.k], t.Count());
  }

  lemma {:induction false} RunImpression(t: Torrent, xs: seq<State>, acts: seq<Action>, k: nat, p: nat)
    requires IsRun(t, xs, acts) && k < |xs|
    ensures ImpressionAt(t, xs[k], p, HeardFrom(xs, acts, p, k))
  {
    hide Inv, Next, ImpressionAt, HeardIn, Init;
    if k == 0 {
      NoImpression(t, xs[0], p);
    } else {
      RunImpression(t, xs, acts, k - 1, p);
      RunInv(t, xs, acts, k - 1);
      InvShaped(t, xs[k - 1]);
      assert Moves(t, xs[k - 1], acts[k - 1], xs[k - 1 + 1]);
      ImpressionStep(t, xs[k - 1], acts[k - 1], xs[k], p, HeardFrom(xs, acts, p, k - 1));
    }
  }

  lemma NoImpression(t: Torrent, x: State, p: nat)
    requires Init(t, x)
    ensures ImpressionAt(t, x, p, [])
  {
  }

  // In every run: a connected peer chokes us exactly until it has sent an unchoke
  // and no choke since, and is interested likewise; it has exactly the pieces its
  // have messages and its first bitfield name, where a well-formed first bitfield
  // replaces whatever was announced before it.
  lemma PeersAreUnderstood(t: Torrent, xs: seq<State>, acts: seq<Action>, k: nat, p: nat)
    requires IsRun(t, xs, acts) && k < |xs| && p in xs[k].s.swarm.conns
    ensures var c, heard := xs[k].s.swarm.conns[p], HeardFrom(xs, acts, p, k);
            && (!c.peerChoking <==> LastSaid(heard, 1, 0))
            && (c.peerInterested <==> LastSaid(heard, 2, 3))
            && (c.gotBitfield <==> exists j :: 0 <= j < |heard| && Begins(heard[j], 5))
            && (forall i :: i in c.has <==> HasSaid(heard, t.Count(), i))
  {
    hide Moves, Init;
    RunImpression(t, xs, acts, k, p);
  }

  // ----- snubbed peers -----

  // a request of p is overdue at this timeout
  ghost predicate LetsDown(x: State, a: Action, p: nat)
  {
    && a.ExpireAt? && a.peer == p && p in x.s.swarm.conns
    && exists r :: r in x.s.swarm.conns[p].pending && r.sentAt < a.cutoff
  }

  // p answers a request it is waited for
  ghost predicate Delivers(x: State, a: Action, p: nat)
  {
    && a.Deliver? && a.peer == p && p in x.s.swarm.conns && |a.msg| >= 9 && a.msg[0] == 7
    && var block := BlockOf(a.msg[1..]);
    && exists r :: r in x.s.swarm.conns[p].pending && r.req == BlockRequest(block.piece, block.offset, |block.data|)
  }

  lemma StaleExists(pending: seq<PendingRequest>, cutoff: int, clock: int)
    requires PendingOk(pending, clock)
    ensures StaleCount(pending, cutoff) > 0 <==> exists r :: r in pending && r.sentAt < cutoff
  {
    if StaleCount(pending, cutoff) > 0 {
      assert pending[0] in pending && pending[0].sentAt < cutoff;
    }
  }

  lemma InSendOrder(t: Torrent, x: State, p: nat)
    requires Inv(t, x) && p in x.s.swarm.conns
    ensures PendingOk(x.s.swarm.conns[p].pending, x.s.clock)
  {
    assert ConnOk(t, x.s, DeliveredTo(x.h, p), p, x.s.swarm.conns[p]);
  }

  lemma SnubExpired(t: Torrent, x: State, from: nat, cutoff: int, y: State, p: nat)
    requires Inv(t, x) && ExpireStep(x, from, cutoff, y) && p in x.s.swarm.conns
    ensures p in y.s.swarm.conns
    ensures y.s.swarm.conns[p].snubbed == (LetsDown(x, ExpireAt(from, cutoff), p) || x.s.swarm.conns[p].snubbed)
  {
    hide P.Release, Inv;
    InSendOrder(t, x, p);
    StaleExists(x.s.swarm.conns[p].pending, cutoff, x.s.clock);
  }

  lemma SnubPiece(sw: Swarm, q: seq<Event>, p: nat, payload: Bytes)
    requires p in sw.conns
    ensures var conns := HandlePiece(sw, q, p, payload).swarm.conns;
            && p in conns
            && (conns[p].snubbed <==>
                sw.conns[p].snubbed
                && (|payload| < 8
                    || var block := BlockOf(payload);
                       forall r :: r in sw.conns[p].pending ==>
                         r.req != BlockRequest(block.piece, block.offset, |block.data|)))
  {
    hide BlockOf;
    if |payload| >= 8 {
      var block, pending := BlockOf(payload), sw.conns[p].pending;
      var k := FindPending(pending, BlockRequest(block.piece, block.offset, |block.data|));
      if k < |pending| { assert pending[k] in pending; }
    }
  }

  lemma SnubMessage(x: State, from: nat, msg: Bytes, y: State, p: nat)
    requires DeliverStep(x, from, msg, y) && p in x.s.swarm.conns
    ensures p in y.s.swarm.conns
    ensures y.s.swarm.conns[p].snubbed == (x.s.swarm.conns[p].snubbed && !Delivers(x, Deliver(from, msg), p))
  {
    hide HandlePiece, FromBytes, Bumped, O.Cancel, ReadBe32, BlockOf, LeakedBy;
    if p != from {
      OthersMessages(x.s.swarm, x.s.queue, from, msg, p);
    } else if msg != [] && msg[0] == MSG_PIECE {
      SnubPiece(x.s.swarm, x.s.queue, p, msg[1..]);
    }
  }

  lemma SnubStep(t: Torrent, x: State, a: Action, y: State, p: nat)
    requires Inv(t, x) && Shaped(t, x.s) && Next(t, x, a, y) && p in x.s.swarm.conns && p in y.s.swarm.conns
    ensures y.s.swarm.conns[p].snubbed <==> LetsDown(x, a, p) || (x.s.swarm.conns[p].snubbed && !Delivers(x, a, p))
  {
    hide Inv, Handle, HandleMessage, Shaped, P.PickStep, O.Send, O.Enqueue, Expire;
    S.OutboxOk(t, x, p);
    match a
    case Deliver(from, msg) => SnubMessage(x, from, msg, y, p);
    case ExpireAt(from, cutoff) => SnubExpired(t, x, from, cutoff, y, p);
    case DispatchNext(order) =>
      S.TailShaped(t, x.s);
      HandledSpoke(t, x.s.(queue := x.s.queue[1..]), x.s.queue[0], order, p);
    case _ =>
  }

  lemma NewcomersAreTrusted(t: Torrent, x: State, a: Action, y: State, p: nat)
    requires Shaped(t, x.s) && Next(t, x, a, y) && p in y.s.swarm.conns && p !in x.s.swarm.conns
    ensures !y.s.swarm.conns[p].snubbed && p == x.s.swarm.nextId
  {
    hide Shaped, Handle, HandleMessage, P.PickStep;
    S.Newcomer(t, x, a, y, p);
  }

  // In every run a connected peer counts as snubbed exactly if some timeout found a
  // request to it overdue and it has answered no request since.
  lemma {:induction false} SnubsAreEarned(t: Torrent, xs: seq<State>, acts: seq<Action>, k: nat, p: nat)
    requires IsRun(t, xs, acts) && k < |xs| && p in xs[k].s.swarm.conns
    ensures xs[k].s.swarm.conns[p].snubbed <==> SnubbedBefore(xs, acts, k, p)
  {
    hide Inv, Next, Init, LetsDown, Delivers;
    if k > 0 {
      RunInv(t, xs, acts, k - 1);
      InvShaped(t, xs[k - 1]);
      assert Moves(t, xs[k - 1], acts[k - 1], xs[k - 1 + 1]);
      if p in xs[k - 1].s.swarm.conns {
        SnubsAreEarned(t, xs, acts, k - 1, p);
        SnubStep(t, xs[k - 1], acts[k - 1], xs[k], p);
        SnubbedMore(xs, acts, k, p);
      } else {
        NewcomersAreTrusted(t, xs[k - 1], acts[k - 1], xs[k], p);
        NobodyBefore(t, xs, acts, k, p);
      }
    } else {
      NobodyConnected(t, xs[0]);
    }
  }

  lemma NobodyConnected(t: Torrent, x: State)
    requires Init(t, x)
    ensures x.s.swarm.conns == map[]
  {
  }

  ghost predicate SnubbedBefore(xs: seq<State>, acts: seq<Action>, k: nat, p: nat)
    requires k <= |acts| <= |xs|
  {
    exists j :: 0 <= j < k && LetsDown(xs[j], acts[j], p) && forall m :: j < m < k ==> !Delivers(xs[m], acts[m], p)
  }

  lemma SnubbedMore(xs: seq<State>, acts: seq<Action>, k: nat, p: nat)
    requires 0 < k <= |acts| <= |xs|
    ensures SnubbedBefore(xs, acts, k, p) <==>
            || LetsDown(xs[k - 1], acts[k - 1], p)
            || (SnubbedBefore(xs, acts, k - 1, p) && !Delivers(xs[k - 1], acts[k - 1], p))
  {
    hide LetsDown, Delivers;
    if SnubbedBefore(xs, acts, k, p) && !LetsDown(xs[k - 1], acts[k - 1], p) {
      var j :| 0 <= j < k && LetsDown(xs[j], acts[j], p) && forall m :: j < m < k ==> !Delivers(xs[m], acts[m], p);
      assert 0 <= j < k - 1;
    }
    if SnubbedBefore(xs, acts, k - 1, p) && !Delivers(xs[k - 1], acts[k - 1], p) {
      var j :| 0 <= j < k - 1 && LetsDown(xs[j], acts[j], p)
               && forall m :: j < m < k - 1 ==> !Delivers(xs[m], acts[m], p);
      assert forall m :: j < m < k ==> !Delivers(xs[m], acts[m], p);
    }
  }

  // an id not handed out yet has never been connected
  lemma {:induction false} NeverBefore(t: Torrent, xs: seq<State>, acts: seq<Action>, j: nat, k: nat, p: nat)
    requires IsRun(t, xs, acts) && j <= k < |xs| && p >= xs[k].s.swarm.nextId
    ensures p !in xs[j].s.swarm.conns
    decreases k
  {
    hide Inv, Next, Init;
    RunInv(t, xs, acts, j);
    if j == k {
      if p in xs[j].s.swarm.conns { S.OutboxOk(t, xs[j], p); }
    } else {
      RunInv(t, xs, acts, k - 1);
      InvShaped(t, xs[k - 1]);
      assert Moves(t, xs[k - 1], acts[k - 1], xs[k - 1 + 1]);
      S.IdsGrow(t, xs[k - 1], acts[k - 1], xs[k]);
      NeverBefore(t, xs, acts, j, k - 1, p);
    }
  }

  lemma NobodyBefore(t: Torrent, xs: seq<State>, acts: seq<Action>, k: nat, p: nat)
    requires IsRun(t, xs, acts) && 0 < k < |xs| && p == xs[k - 1].s.swarm.nextId
    ensures !SnubbedBefore(xs, acts, k, p)
  {
    hide Moves, Init, Delivers;
    forall j | 0 <= j < k ensures !LetsDown(xs[j], acts[j], p) {
      NeverBefore(t, xs, acts, j, k - 1, p);
    }
  }
}
