// Bans and connections over whole runs: every verdict is carried out, nobody else
// is banned, and a connection lasts until it is dropped or its host is banned.
module Verdicts {
  import opened Types
  import opened Torrents
  import opened Bitfields
  import opened Swarms
  import opened Engine
  import opened Invariants
  import opened Arrivals
  import opened Runs
  import opened Honesty
  import opened Conversations
  import O = Outboxes
  import P = Pieces
  import B = Bans
  import S = Streams

  // ----- carrying out a ban -----

  lemma {:induction false} DropHostExact(sw: Swarm, host: Host, order: seq<nat>, p: nat)
    ensures var sw' := DropHost(sw, host, order).0;
            && sw'.banned == sw.banned
            && (p in sw'.conns <==> p in sw.conns && !(sw.conns[p].host == host && p in order))
            && (p in sw'.conns ==> sw'.conns[p] == sw.conns[p])
    decreases |order|
  {
    if order == [] {
    } else if order[0] in sw.conns && sw.conns[order[0]].host == host {
      DropHostExact(Drop(sw, order[0]).0, host, order[1..], p);
    } else {
      DropHostExact(sw, host, order[1..], p);
    }
  }

  lemma {:induction false} BansExact(s: Session, hosts: seq<Host>, order: Host -> seq<nat>, p: nat)
    requires forall h, q :: q in s.swarm.conns ==> q in order(h)
    requires forall q :: q in s.swarm.conns ==> s.swarm.conns[q].host !in s.swarm.banned
    ensures var sw, sw' := s.swarm, BanHosts(s, hosts, order).swarm;
            && sw'.banned == sw.banned + (set h | h in hosts)
            && (p in sw'.conns <==> p in sw.conns && sw.conns[p].host !in hosts)
            && (p in sw'.conns ==> sw'.conns[p] == sw.conns[p])
    decreases |hosts|
  {
    if hosts == [] {
    } else {
      var host, s1 := hosts[0], BanHost(s, hosts[0], order(hosts[0]));
      forall q ensures
          && (q in s1.swarm.conns <==> q in s.swarm.conns && s.swarm.conns[q].host != host)
          && (q in s1.swarm.conns ==> s1.swarm.conns[q] == s.swarm.conns[q])
          && s1.swarm.banned == s.swarm.banned + {host}
      {
        DropHostExact(s.swarm.(banned := s.swarm.banned + {host}), host, order(host), q);
      }
      BansExact(s1, hosts[1..], order, p);
      assert hosts == [host] + hosts[1..];
    }
  }

  // ----- verdicts -----

  // the hosts the step's block convicts
  ghost function ConvictedIn(t: Torrent, x: State, a: Action): set<Host>
  {
    if Shaped(t, x.s) && a.DispatchNext? && x.s.queue != [] && x.s.queue[0].PieceArrived? then
      S.TailShaped(t, x.s);
      set h | h in FilePiece(t, x.s.(queue := x.s.queue[1..]), x.s.queue[0].peer, x.s.queue[0].block).1
    else {}
  }

  // the hosts convicted in the first k steps
  ghost function Convicted(t: Torrent, xs: seq<State>, acts: seq<Action>, k: nat): set<Host>
    requires k <= |acts| <= |xs|
  {
    if k == 0 then {} else Convicted(t, xs, acts, k - 1) + ConvictedIn(t, xs[k - 1], acts[k - 1])
  }

  lemma FilePieceHosts(t: Torrent, s: Session, from: nat, block: Block, p: nat)
    requires Shaped(t, s)
    ensures var sw := FilePiece(t, s, from, block).0.swarm;
            && sw.banned == s.swarm.banned && sw.conns.Keys == s.swarm.conns.Keys
            && (p in sw.conns ==> sw.conns[p].host == s.swarm.conns[p].host)
  {
    hide P.OnBlock, B.OnPieceVerified, B.OnPieceFailed, O.Enqueue;
  }

  // what a step does to who is connected: p stays unless it is dropped or its host
  // is convicted
  ghost predicate StaysConnected(t: Torrent, x: State, a: Action, y: State, p: nat)
    requires p in x.s.swarm.conns
  {
    && (p in y.s.swarm.conns <==>
        !(a.DropConn? && a.peer == p) && x.s.swarm.conns[p].host !in ConvictedIn(t, x, a))
    && (p in y.s.swarm.conns ==> y.s.swarm.conns[p].host == x.s.swarm.conns[p].host)
  }

  lemma UnbannedHosts(t: Torrent, x: State)
    requires Inv(t, x)
    ensures forall q :: q in x.s.swarm.conns ==> x.s.swarm.conns[q].host !in x.s.swarm.banned
  {
    forall q | q in x.s.swarm.conns ensures x.s.swarm.conns[q].host !in x.s.swarm.banned {
      assert ConnOk(t, x.s, DeliveredTo(x.h, q), q, x.s.swarm.conns[q]);
    }
  }

  lemma VerdictStep(t: Torrent, x: State, order: Host -> seq<nat>, y: State, p: nat)
    requires Inv(t, x) && Shaped(t, x.s) && DispatchStep(t, x, order, y) && x.s.queue[0].PieceArrived?
    ensures y.s.swarm.banned == x.s.swarm.banned + ConvictedIn(t, x, DispatchNext(order))
    ensures p in x.s.swarm.conns ==> StaysConnected(t, x, DispatchNext(order), y, p)
  {
    hide Inv, FilePiece, BanHosts, Shaped, ArrivalsWith;
    var s, from, block := x.s.(queue := x.s.queue[1..]), x.s.queue[0].peer, x.s.queue[0].block;
    S.TailShaped(t, x.s);
    UnbannedHosts(t, x);
    var (s1, hosts) := FilePiece(t, s, from, block);
    forall q ensures s1.swarm.banned == s.swarm.banned && s1.swarm.conns.Keys == s.swarm.conns.Keys
                     && (q in s1.swarm.conns ==> s1.swarm.conns[q].host == s.swarm.conns[q].host)
    {
      FilePieceHosts(t, s, from, block, q);
    }
    forall h, q | q in s1.swarm.conns ensures q in order(h) {
      assert Lists(order(h), x.s.swarm);
    }
    BansExact(s1, hosts, order, p);
  }

  // nothing but a verdict bans
  lemma NoVerdict(t: Torrent, x: State, a: Action, y: State, p: nat)
    requires Shaped(t, x.s) && Next(t, x, a, y) && !(a.DispatchNext? && x.s.queue[0].PieceArrived?)
    ensures y.s.swarm.banned == x.s.swarm.banned && ConvictedIn(t, x, a) == {}
    ensures p in x.s.swarm.conns && p < x.s.swarm.nextId ==> StaysConnected(t, x, a, y, p)
  {
    hide HandleMessage, Shaped, P.PickStep, OnAsked, OnJoined, OnPiece, O.Enqueue, O.Send, Expire;
    match a
    case Deliver(from, msg) => HostsHeard(x.s.swarm, x.s.queue, from, msg, p);
    case ExpireAt(from, cutoff) => HostsExpired(x.s, from, cutoff, p);
    case DispatchNext(order) => HostsHandled(t, x, order, y, p);
    case _ =>
  }

  lemma HostsHeard(sw: Swarm, q: seq<Event>, from: nat, msg: Bytes, p: nat)
    ensures var sw' := HandleMessage(sw, q, from, msg).swarm;
            && sw'.banned == sw.banned && sw'.conns.Keys == sw.conns.Keys
            && (p in sw.conns ==> sw'.conns[p].host == sw.conns[p].host)
  {
    hide HandleMessage;
    DeliverEvents(sw, q, from, msg);
    S.MessageKeys(sw, q, from, msg);
    if p in sw.conns {
      if p == from {
        OwnHost(sw, q, p, msg);
      } else {
        OthersMessages(sw, q, from, msg, p);
      }
    }
  }

  lemma OwnHost(sw: Swarm, q: seq<Event>, p: nat, msg: Bytes)
    requires p in sw.conns
    ensures var conns := HandleMessage(sw, q, p, msg).swarm.conns; p in conns && conns[p].host == sw.conns[p].host
  {
    hide Learns, HandleHave, HandleBitfield, HandleRequest, HandlePiece, HandleCancel;
    if Begins(msg, 4) {
      HeardHave(sw, q, p, msg);
    } else if Begins(msg, 5) {
      HeardBitfield(sw, q, p, msg);
    } else if msg != [] && 6 <= msg[0] <= 8 {
      HeardOther(sw, q, p, msg[1..]);
    }
  }

  lemma HostsExpired(s: Session, from: nat, cutoff: int, p: nat)
    requires from in s.swarm.conns
    ensures var sw, sw' := s.swarm, Expire(s, from, cutoff).swarm;
            && sw'.banned == sw.banned && sw'.conns.Keys == sw.conns.Keys
            && (p in sw.conns ==> sw'.conns[p].host == sw.conns[p].host)
  {
    hide P.Release;
  }

  lemma HostsHandled(t: Torrent, x: State, order: Host -> seq<nat>, y: State, p: nat)
    requires Shaped(t, x.s) && DispatchStep(t, x, order, y) && !x.s.queue[0].PieceArrived?
    ensures var sw, sw' := x.s.swarm, y.s.swarm;
            && sw'.banned == sw.banned && sw'.conns.Keys == sw.conns.Keys
            && (p in sw.conns ==> sw'.conns[p].host == sw.conns[p].host)
  {
    hide Shaped, O.Enqueue, OnJoined, OnAsked, OnPiece, P.Release;
    var s := x.s.(queue := x.s.queue[1..]);
    S.TailShaped(t, x.s);
    match x.s.queue[0]
    case Joined(from) => HostsJoined(t, s, from, p);
    case BlockAsked(from, req) => HostsAsked(t, s, from, req, p);
    case _ =>
  }

  lemma HostsJoined(t: Torrent, s: Session, from: nat, p: nat)
    ensures var sw, sw' := s.swarm, OnJoined(t, s, from).swarm;
            && sw'.banned == sw.banned && sw'.conns.Keys == sw.conns.Keys
            && (p in sw.conns ==> sw'.conns[p].host == sw.conns[p].host)
  {
    hide O.Enqueue, Pack;
  }

  lemma HostsAsked(t: Torrent, s: Session, from: nat, req: BlockRequest, p: nat)
    requires Shaped(t, s)
    ensures var sw, sw' := s.swarm, OnAsked(t, s, from, req).swarm;
            && sw'.banned == sw.banned && sw'.conns.Keys == sw.conns.Keys
            && (p in sw.conns ==> sw'.conns[p].host == sw.conns[p].host)
  {
    hide O.Enqueue, P.Wf;
  }

  lemma StepBans(t: Torrent, x: State, a: Action, y: State, p: nat)
    requires Inv(t, x) && Shaped(t, x.s) && Next(t, x, a, y)
    ensures y.s.swarm.banned == x.s.swarm.banned + ConvictedIn(t, x, a)
    ensures p in x.s.swarm.conns ==> StaysConnected(t, x, a, y, p)
  {
    hide Inv, Dispatch, HandleMessage, Shaped, ConvictedIn, StaysConnected;
    if p in x.s.swarm.conns { S.OutboxOk(t, x, p); }
    if a.DispatchNext? && x.s.queue[0].PieceArrived? {
      VerdictStep(t, x, a.order, y, p);
    } else {
      NoVerdict(t, x, a, y, p);
    }
  }

  // In every run the banned hosts are exactly those convicted so far.
  lemma {:induction false} OnlyTheConvictedAreBanned(t: Torrent, xs: seq<State>, acts: seq<Action>, k: nat)
    requires IsRun(t, xs, acts) && k < |xs|
    ensures xs[k].s.swarm.banned == Convicted(t, xs, acts, k)
  {
    hide Inv, Next, ConvictedIn, StaysConnected, Init;
    if k == 0 {
      NoneBanned(t, xs[0]);
    } else {
      OnlyTheConvictedAreBanned(t, xs, acts, k - 1);
      RunInv(t, xs, acts, k - 1);
      InvShaped(t, xs[k - 1]);
      assert Moves(t, xs[k - 1], acts[k - 1], xs[k - 1 + 1]);
      StepBans(t, xs[k - 1], acts[k - 1], xs[k], 0);
    }
  }

  lemma NoneBanned(t: Torrent, x: State)
    requires Init(t, x)
    ensures x.s.swarm.banned == {}
  {
  }

  // In every run: once a handshake has become connection p, it stays connected, with
  // the host of that handshake, exactly until it is dropped or its host is convicted.
  lemma {:induction false} ConnectionsLast(t: Torrent, xs: seq<State>, acts: seq<Action>, j: nat, k: nat, p: nat)
    requires IsRun(t, xs, acts) && j < k < |xs| && acts[j].FinishHandshake? && p == xs[j].s.swarm.nextId
    ensures acts[j].k < |xs[j].s.swarm.handshaking| && p < xs[k].s.swarm.nextId
    ensures var host := xs[j].s.swarm.handshaking[acts[j].k];
            && (p in xs[k].s.swarm.conns <==>
                (forall m :: j < m < k ==> acts[m] != DropConn(p)) && host !in Convicted(t, xs, acts, k))
            && (p in xs[k].s.swarm.conns ==> xs[k].s.swarm.conns[p].host == host)
    decreases k
  {
    hide Inv, Next, ConvictedIn, Init;
    var x, a := xs[k - 1], acts[k - 1];
    RunInv(t, xs, acts, k - 1);
    InvShaped(t, x);
    assert Moves(t, x, a, xs[k - 1 + 1]);
    if k == j + 1 {
      OnlyTheConvictedAreBanned(t, xs, acts, k);
      Promoted(t, x, a, xs[k]);
    } else {
      ConnectionsLast(t, xs, acts, j, k - 1, p);
      S.IdsGrow(t, x, a, xs[k]);
      StepBans(t, x, a, xs[k], p);
      if p !in x.s.swarm.conns && p in xs[k].s.swarm.conns { S.Newcomer(t, x, a, xs[k], p); }
    }
  }

  lemma Promoted(t: Torrent, x: State, a: Action, y: State)
    requires Shaped(t, x.s) && Next(t, x, a, y) && a.FinishHandshake?
    ensures a.k < |x.s.swarm.handshaking|
    ensures var p, host := x.s.swarm.nextId, x.s.swarm.handshaking[a.k];
            && p in y.s.swarm.conns && p < y.s.swarm.nextId
            && y.s.swarm.conns[p].host == host && host !in y.s.swarm.banned
  {
  }
}
