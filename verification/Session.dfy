// Session (src/runtime/session.cpp): the one object that touches more than one
// manager. Each method is tied to the step of Engine it performs and keeps the
// invariant of every run.
module Sessions {
  import opened Types
  import opened Torrents
  import opened Wire
  import opened Bitfields
  import opened Swarms
  import opened E = Engine
  import opened Invariants
  import opened Delivery
  import Membership
  import opened Arrivals
  import opened Runs
  import P = Pieces
  import B = Bans
  import opened PieceManagers
  import opened BanManagers
  import opened PeerManagers
  import opened DiskManagers
  import opened Reporting
  import opened TrackerReplies
  import opened TrackerManagers
  import T = Trackers

  class Session {
    const torrent: Torrent
    const pieces: PieceManager
    const bans: BanManager
    const peers: PeerManager
    const disk: DiskManager
    const trackers: TrackerManager

    var queue: seq<Event>
    var clock: int
    var completed: bool
    var notified: bool
    ghost var history: History

    ghost predicate Coherent()
      reads this, pieces, bans, peers, disk
    {
      pieces.torrent == torrent && disk.torrent == torrent && pieces.Valid() && disk.Valid()
    }

    ghost function Value(): E.Session
      reads this, pieces, bans, peers, disk
      requires Coherent()
    {
      E.Session(pieces.Value(), bans.Value(), peers.Value(), disk.Flat(), queue, clock, completed, notified)
    }

    ghost function Current(): State
      reads this, pieces, bans, peers, disk
      requires Coherent()
    {
      State(Value(), history)
    }

    ghost predicate Valid()
      reads this, pieces, bans, peers, disk
    {
      Coherent() && Inv(torrent, Current())
    }

    // the session and its trackers, as one state of a joint run
    ghost function Together(): Joint
      reads this, pieces, bans, peers, disk, trackers, trackers.trackers
      requires Coherent()
    {
      Joint(Current(), trackers.Views())
    }

    // the trackers know of completion exactly when this session has told them
    ghost predicate TrackersInformed()
      reads this, trackers, trackers.trackers
    {
      trackers.Valid() && trackers.downloadComplete == notified
    }

    // nothing owned, nobody connected, trackers not told
    ghost predicate Blank()
      reads this, pieces, bans, peers, disk, trackers, trackers.trackers
    {
      && Coherent() && TrackersInformed()
      && pieces.have == {} && pieces.active == map[] && queue == [] && !notified
      && bans.Value() == B.Bans(map[], map[], map[])
      && peers.Value() == Swarm(map[], [], {}, 0, seq(torrent.Count(), _ => 0))
    }

    // the member initialisers; Start is the constructor's body
    constructor (torrent: Torrent, disk: DiskManager, trackers: TrackerManager, now: int)
      requires disk.Valid() && disk.torrent == torrent && trackers.Valid() && !trackers.downloadComplete
      ensures Blank() && this.torrent == torrent && this.disk == disk && this.trackers == trackers
      ensures fresh(pieces) && fresh(bans) && fresh(peers)
    {
      this.torrent := torrent;
      this.disk := disk;
      this.trackers := trackers;
      pieces := new PieceManager(torrent);
      bans := new BanManager();
      peers := new PeerManager(torrent.Count());
      queue, clock, completed, notified := [], now, false, false;
    }

    // everything already on disk that verifies is owned; with new trackers this
    // is the start of a joint run
    method Start()
      requires Blank()
      modifies this, pieces
      ensures Valid() && TrackersInformed() && Init(torrent, Current())
      ensures (forall i :: 0 <= i < |trackers.trackers| ==> T.Init(trackers.ViewOf(i))) ==>
                JointInit(torrent, Together())
    {
      RecheckAll();
      completed := pieces.haveCount == torrent.Count();
      history := History(map[], map[], seq(torrent.Count(), _ => 0), completed);
      hide Inv;
      InitInv(torrent, Current());
    }

    method RecheckAll()
      requires Coherent() && pieces.have == {} && pieces.active == map[]
      modifies pieces
      ensures Coherent() && pieces.have == Verified(torrent, disk.Flat()) && pieces.active == map[]
    {
      var i := 0;
      while i < torrent.Count()
        invariant 0 <= i <= torrent.Count() && Coherent()
        invariant forall j :: j in pieces.have <==> 0 <= j < i && torrent.Verify(j, torrent.PieceOf(disk.Flat(), j))
        invariant pieces.active == map[]
      {
        var data := disk.ReadBlock(i, 0, torrent.Size(i));
        assert torrent.PieceOf(disk.Flat(), i)[0..torrent.Size(i)] == torrent.PieceOf(disk.Flat(), i);
        var ok := pieces.Recheck(i, data.value);
        i := i + 1;
      }
    }

    // ----- events -----

    method Greet(peer: nat)
      requires Coherent()
      modifies peers
      ensures Coherent() && Value() == E.Greet(torrent, old(Value()), peer)
    {
      peers.SendTo(peer, BitfieldMsg(Pack(pieces.have, torrent.Count())));
      peers.SendUnchoke(peer);
      if pieces.haveCount != torrent.Count() {
        peers.SendInterested(peer);
      }
    }

    method OnJoined(peer: nat)
      requires Coherent()
      modifies bans, peers
      ensures Coherent() && Value() == E.OnJoined(torrent, old(Value()), peer)
    {
      if peer in peers.conns {
        bans.OnJoin(peer, peers.conns[peer].host);
      }
      Greet(peer);
    }

    // Session::ban for each host of a verdict
    method BanHosts(hosts: seq<Host>) returns (ghost order: Host -> seq<nat>)
      requires Coherent()
      modifies pieces, peers
      ensures Coherent() && Value() == E.BanHosts(old(Value()), hosts, order)
      ensures forall h :: Lists(order(h), old(peers.Value()))
    {
      hide E.BanHost;
      ghost var before := Value();
      ghost var all := KeySeq(peers.conns);
      order := _ => all;
      var k := 0;
      while k < |hosts|
        invariant 0 <= k <= |hosts| && Coherent()
        invariant Value() == E.BanHosts(before, hosts[..k], order)
        invariant forall h :: Lists(order(h), before.swarm)
        invariant forall h :: h in hosts[..k] ==> h in peers.banned
        invariant forall p :: p in peers.conns ==> p in before.swarm.conns
      {
        var host := hosts[k];
        assert hosts[..k + 1] == hosts[..k] + [host];
        ghost var was := order;
        if host in peers.banned {
          BannedAlready(Value(), host, order(host));
          BansAppend(before, hosts[..k], host, order);
        } else {
          order := BanOne(host, before, was);
          BansSameOrder(before, hosts[..k], was, order);
          BansAppend(before, hosts[..k], host, order);
        }
        k := k + 1;
      }
      assert hosts[..k] == hosts;
    }

    // ban one host and give back what its connections were asked for
    method BanOne(host: Host, ghost before: E.Session,
                  ghost was: Host -> seq<nat>) returns (ghost order: Host -> seq<nat>)
      requires Coherent() && host !in peers.banned
      requires forall h :: Lists(was(h), before.swarm)
      requires forall p :: p in peers.conns ==> p in before.swarm.conns
      modifies pieces, peers
      ensures Coherent() && Value() == E.BanHost(old(Value()), host, order(host))
      ensures forall h :: h != host ==> order(h) == was(h)
      ensures forall h :: Lists(order(h), before.swarm)
      ensures host in peers.banned && old(peers.banned) <= peers.banned
      ensures forall p :: p in peers.conns ==> p in old(peers.conns)
    {
      ghost var s0 := Value();
      var events;
      ghost var listed;
      events, listed := peers.Ban(host);
      ghost var full := listed + was(host);
      BanMore(s0.swarm, host, listed, was(host));
      order := h => if h == host then full else was(h);
      BanShrinks(s0.swarm, host, full);
      var k := 0;
      while k < |events|
        invariant 0 <= k <= |events| && Coherent()
        invariant pieces.Value() == E.ReleaseEvents(s0.pieces, events[..k])
        invariant peers.Value() == Ban(s0.swarm, host, full).0
      {
        assert events[..k + 1] == events[..k] + [events[k]];
        ReleaseAppend(s0.pieces, events[..k], events[k]);
        if events[k].Dropped? || events[k].Choked? {
          pieces.Release(events[k].released);
        }
        k := k + 1;
      }
      assert events[..k] == events;
    }

    method OnPiece(peer: nat, block: Block) returns (ghost order: Host -> seq<nat>)
      requires Coherent() && Shaped(torrent, Value())
      modifies pieces, bans, peers, disk
      ensures Coherent() && Value() == E.OnPiece(torrent, old(Value()), peer, block, order)
      ensures forall h :: Lists(order(h), old(peers.Value()))
    {
      ghost var before := Value();
      var hosts := FilePiece(peer, block);
      FilePieceKeeps(torrent, before, peer, block);
      order := BanHosts(hosts);
    }

    // on_piece up to the verdict
    method FilePiece(peer: nat, block: Block) returns (hosts: seq<Host>)
      requires Coherent() && Shaped(torrent, Value())
      modifies pieces, bans, peers, disk
      ensures Coherent() && (Value(), hosts) == E.FilePiece(torrent, old(Value()), peer, block)
    {
      ghost var before := Value();
      var result := pieces.OnBlock(block);
      // the verdict below must already know who sent this block
      if !result.Rejected? {
        bans.OnBlock(peer, block);
      }
      match result
      case Rejected => hosts := [];
      case Incomplete => hosts := [];
      case PieceVerified(i, data) =>
        Evident(torrent, before.bans, i, data);
        hosts := Store(i, data);
      case PieceFailed(i, data) =>
        hosts := bans.OnPieceFailed(i, data);
    }

    // a verified piece goes to disk, is announced, and settles its evidence
    method Store(index: nat, data: Bytes) returns (hosts: seq<Host>)
      requires Coherent() && torrent.Valid() && index < torrent.Count() && |data| == torrent.Size(index)
      requires index in bans.evidence ==> B.EvidenceFits(bans.evidence[index], data)
      modifies bans, peers, disk
      ensures Coherent()
      ensures var (bans', hosts') := B.OnPieceVerified(old(bans.Value()), index, data);
        hosts == hosts' && Value() == old(Value()).(disk := Splice(old(disk.Flat()), torrent.Offset(index), data),
                                                    swarm := Swarms.BroadcastHave(old(peers.Value()), index),
                                                        bans := bans')
    {
      var ok := disk.WritePiece(index, data);
      peers.BroadcastHave(index);
      hosts := bans.OnPieceVerified(index, data);
    }

    method OnAsked(peer: nat, req: BlockRequest)
      requires Coherent() && Shaped(torrent, Value())
      modifies peers
      ensures Coherent() && Value() == E.OnAsked(torrent, old(Value()), peer, req)
    {
      if req.piece !in pieces.have { return; }
      var room := peers.CanQueue(peer);
      if !room { return; }
      var data := disk.ReadBlock(req.piece, req.offset, req.length);
      if data.Some? {
        peers.SendTo(peer, PieceMsg(req.piece, req.offset, data.value));
      }
    }

    method Perform(ev: Event) returns (ghost order: Host -> seq<nat>)
      requires Coherent() && Shaped(torrent, Value())
      modifies pieces, bans, peers, disk
      ensures Coherent() && Value() == E.Handle(torrent, old(Value()), ev, order)
      ensures forall h :: Lists(order(h), old(peers.Value()))
    {
      hide Shaped, E.OnPiece, E.OnJoined, E.OnAsked, P.Release;
      ghost var all := KeySeq(peers.conns);
      order := _ => all;
      match ev
      case Joined(p) => OnJoined(p);
      case PieceArrived(p, block) => order := OnPiece(p, block);
      case BlockAsked(p, req) => OnAsked(p, req);
      case Choked(_, released) => pieces.Release(released);
      case Dropped(_, released) => pieces.Release(released);
      case Unchoked(_) =>
    }

    method DispatchNext() returns (ghost order: Host -> seq<nat>)
      requires Valid() && queue != []
      modifies this, pieces, bans, peers, disk
      ensures Valid()
      ensures DispatchStep(torrent, old(Current()), order, Current())
    {
      hide Inv, E.Handle, ArrivalsWith;
      ghost var x := Current();
      InvShaped(torrent, x);
      var ev := queue[0];
      queue := queue[1..];
      assert Value() == x.s.(queue := x.s.queue[1..]);
      order := Perform(ev);
      if ev.PieceArrived? {
        history := x.h.(arrivals := ArrivalsWith(torrent, x.s.pieces, x.h.arrivals, ev.peer, ev.block));
      }
      assert DispatchStep(torrent, x, order, Current());
      DispatchInv(torrent, x, order, Current());
    }

    // one message of one peer, as handle_events reads it
    method Deliver(peer: nat, msg: Bytes) returns (ok: bool)
      requires Valid()
      modifies this, peers
      ensures Valid()
      ensures DeliverStep(old(Current()), peer, msg, Current())
      ensures ok == HandleMessage(old(peers.Value()), old(queue), peer, msg).ok
    {
      hide Inv;
      ghost var x := Current();
      history := history.(leaked := LeakedBy(x, peer, msg));
      queue, ok := peers.HandleMessage(peer, msg, queue);
      assert DeliverStep(x, peer, msg, Current());
      DeliverInv(torrent, x, peer, msg, Current());
    }

    // ----- timeouts and completion -----

    // the requests at the front that were sent before the cutoff, and the rest
    method TakeStale(pending: seq<PendingRequest>, cutoff: int) returns (stale: seq<BlockRequest>,
                                                                         rest: seq<PendingRequest>)
      ensures var k := StaleCount(pending, cutoff); stale == RequestsOf(pending[..k]) && rest == pending[k..]
    {
      var k := 0;
      stale := [];
      while k < |pending| && pending[k].sentAt < cutoff
        invariant 0 <= k <= |pending|
        invariant forall j :: 0 <= j < k ==> pending[j].sentAt < cutoff
        invariant stale == RequestsOf(pending[..k])
      {
        stale := stale + [pending[k].req];
        k := k + 1;
      }
      rest := pending[k..];
    }

    method ExpireOne(peer: nat, cutoff: int)
      requires Valid() && queue == [] && peer in peers.conns
      modifies pieces, peers
      ensures Valid() && Moves(torrent, old(Current()), ExpireAt(peer, cutoff), Current())
      ensures peers.conns == old(peers.conns)[peer := Expired(old(peers.conns)[peer], cutoff)]
    {
      hide Inv;
      ghost var x := Current();
      InvShaped(torrent, x);
      var c := peers.conns[peer];
      var stale, rest := TakeStale(c.pending, cutoff);
      if stale != [] {
        peers.conns := peers.conns[peer := c.(pending := rest, snubbed := true)];
        pieces.Release(stale);
      }
      assert ExpireStep(x, peer, cutoff, Current());
      ExpireInv(torrent, x, peer, cutoff, Current());
    }

    // Every connection loses exactly its requests sent before the cutoff, and
    // timeouts alone lead there.
    method ExpireAll(cutoff: int)
      requires Valid() && queue == []
      modifies pieces, peers
      ensures Valid() && Leads(torrent, old(Current()), Expiring(cutoff), Current())
      ensures Trimmed(old(peers.conns), peers.conns, cutoff, {})
      ensures forall p :: p in peers.conns ==> NoneOlder(peers.conns[p].pending, cutoff)
    {
      hide Inv, Moves, Leads, Expired;
      ghost var x := Current();
      LeadsNowhere(torrent, x, Expiring(cutoff));
      var todo := peers.conns.Keys;
      while todo != {}
        invariant Valid() && todo <= peers.conns.Keys
        invariant Leads(torrent, x, Expiring(cutoff), Current())
        invariant Trimmed(x.s.swarm.conns, peers.conns, cutoff, todo)
        decreases todo
      {
        var p :| p in todo;
        ghost var y := Current();
        ExpireOne(p, cutoff);
        LeadsStep(torrent, x, Expiring(cutoff), y, ExpireAt(p, cutoff), Current());
        todo := todo - {p};
      }
      TrimmedIsFresh(torrent, x, peers.conns, cutoff);
    }

    // One step of a joint run: the trackers take their finish step with the notice.
    method NoticeComplete(now: int)
      requires Valid() && TrackersInformed() && queue == []
      modifies this, trackers, trackers.trackers
      ensures Valid() && TrackersInformed() && CompleteStep(torrent, old(Current()), Current())
      ensures JointNext(torrent, old(Together()), ClientStep(Action.NoticeComplete, now), Together())
    {
      hide Inv, T.Next, T.Inv, Moves;
      ghost var j := Together();
      NotifiedMeansCompleted(torrent, j.x);
      if pieces.haveCount == torrent.Count() && !completed {
        completed := true;
        notified := true;
        trackers.OnDownloadComplete(now);
      }
      CompletedOnce(torrent, j.x, Current());
      assert trackers.Views() == Informed(j.x, j.trackers, Current(), now);
    }

    // One round of the trackers: each takes its packet step and then its timer
    // step, which are steps of a joint run; the peers are those of the replies.
    method TickTrackers(inputs: seq<Input>, now: int) returns (found: seq<PeerAddr>)
      requires Valid() && TrackersInformed()
      modifies trackers.trackers
      ensures Valid() && TrackersInformed() && Current() == old(Current())
      ensures TrackersLead(torrent, old(Together()), Together())
      ensures |inputs| != |trackers.trackers| ==> found == [] && Together() == old(Together())
      ensures |inputs| == |trackers.trackers| ==> found == Gathered(old(trackers.Views()), inputs)
      ensures |inputs| == |trackers.trackers| ==>
        forall i :: 0 <= i < |inputs| ==>
          trackers.ViewOf(i) == T.Next(PacketStep(old(trackers.ViewOf(i)), inputs[i]), T.Timer(now, inputs[i].env))
    {
      hide Inv, T.Next, T.Inv, TrackersLead;
      ghost var j := Together();
      found := trackers.Tick(inputs, now);
      if |inputs| == |trackers.trackers| {
        RoundLeads(torrent, j, inputs, now, Together());
      } else {
        assert trackers.Views() == j.trackers;
        LeadsHere(torrent, j);
      }
    }

    method BeginShutdown(now: int)
      requires Valid() && TrackersInformed()
      modifies trackers, trackers.trackers
      ensures Valid() && TrackersInformed() && JointNext(torrent, old(Together()), ShutdownStep(now), Together())
    {
      hide Inv, T.Next, T.Inv;
      ghost var j := Together();
      trackers.BeginShutdown(now);
      assert trackers.Views() == All(j.trackers, T.Shutdown(now));
    }

    // ----- scheduling -----

    // one pick for one peer
    method AskOne(peer: nat, ghost start: State) returns (asked: bool)
      requires Valid() && queue == [] && peer in peers.conns && WantsWork(peers.conns[peer])
      requires Leads(torrent, start, SCHEDULING, Current())
      modifies this, pieces, peers
      ensures Valid() && queue == [] && Leads(torrent, start, SCHEDULING, Current())
      ensures if asked then AsksMore(torrent, old(Value()), peer, Value())
              else Value() == old(Value()) && Served(torrent, Value(), peer)
    {
      hide Inv, Leads, AsksMore;
      ghost var x := Current();
      var has := peers.conns[peer].has;
      CountersFit(torrent, x);
      var req := pieces.PickBlock(has, peers.frequency, peer);
      if req.None? { return false; }
      var now :| clock <= now;
      clock := now;
      ghost var picked := pieces.Value();
      peers.SendRequest(peer, req.value, now);
      assert ScheduleStep(torrent, x, peer, now, picked, req.value, Current());
      OneMoreAsked(torrent, start, x, peer, now, picked, req.value, Current());
      return true;
    }

    // fill one healthy peer's pipeline
    method FillOne(peer: nat, ghost todo: set<nat>, ghost start: State)
      requires Valid() && queue == [] && peer in peers.conns && AllServedBut(torrent, Value(), todo + {peer})
      requires Leads(torrent, start, SCHEDULING, Current())
      modifies this, pieces, peers
      ensures Valid() && queue == [] && peers.conns.Keys == old(peers.conns).Keys
      ensures AllServedBut(torrent, Value(), todo) && Leads(torrent, start, SCHEDULING, Current())
      ensures SameAside(old(peers.conns), peers.conns, false)
    {
      hide Inv, Leads, AsksMore, AllServedBut, Served, SameAside;
      SameAsBefore(peers.conns, false);
      var filling := !peers.conns[peer].peerChoking && !peers.conns[peer].snubbed;
      while filling && |peers.conns[peer].pending| < PIPELINE_DEPTH
        invariant Valid() && queue == [] && peers.conns.Keys == old(peers.conns).Keys
        invariant filling ==> !peers.conns[peer].peerChoking && !peers.conns[peer].snubbed
        invariant !filling ==>
            peers.conns[peer].peerChoking || peers.conns[peer].snubbed || Served(torrent, Value(), peer)
        invariant AllServedBut(torrent, Value(), todo + {peer}) && Leads(torrent, start, SCHEDULING, Current())
        invariant SameAside(old(peers.conns), peers.conns, false)
        decreases filling, PIPELINE_DEPTH - |peers.conns[peer].pending|
      {
        ghost var before := Value();
        filling := AskOne(peer, start);
        if filling { AskedHealthy(torrent, old(peers.conns), before, peer, todo + {peer}, Value()); }
      }
      FilledUp(torrent, Value(), peer, todo, filling);
    }

    // every healthy peer, in whatever order the map lists them
    method FillAll(ghost start: State)
      requires Valid() && queue == [] && Leads(torrent, start, SCHEDULING, Current())
      modifies this, pieces, peers
      ensures Valid() && queue == [] && peers.conns.Keys == old(peers.conns).Keys
      ensures AllServedBut(torrent, Value(), {}) && Leads(torrent, start, SCHEDULING, Current())
      ensures SameAside(old(peers.conns), peers.conns, false)
    {
      hide Inv, Leads;
      var todo := peers.conns.Keys;
      while todo != {}
        invariant Valid() && queue == [] && todo <= peers.conns.Keys == old(peers.conns).Keys
        invariant AllServedBut(torrent, Value(), todo) && Leads(torrent, start, SCHEDULING, Current())
        invariant SameAside(old(peers.conns), peers.conns, false)
        decreases todo
      {
        var p :| p in todo;
        assert todo - {p} + {p} == todo;
        todo := todo - {p};
        FillOne(p, todo, start);
      }
    }

    // Work conservation: afterwards every unchoked peer with room for a request has
    // nothing left that is still wanted; there is room below a full pipeline, or for
    // a snubbed peer, with nothing pending. Snubbed peers come second: up to 'mid'
    // they are left alone, every healthy peer is served there, and afterwards the
    // healthy ones are left alone. Scheduling steps alone lead from stage to stage.
    method ScheduleAll() returns (ghost mid: State)
      requires Valid() && queue == []
      modifies this, pieces, peers
      ensures Valid() && peers.conns.Keys == old(peers.conns).Keys
      ensures Leads(torrent, old(Current()), SCHEDULING, mid) && Leads(torrent, mid, SCHEDULING, Current())
      ensures SameAside(old(peers.conns), mid.s.swarm.conns, false) && AllServedBut(torrent, mid.s, {})
      ensures SameAside(mid.s.swarm.conns, peers.conns, true)
      ensures forall p :: p in peers.conns ==> Served(torrent, Value(), p)
    {
      hide Inv, Leads, AsksMore, AllServedBut, Served, SameAside, NextServed;
      LeadsNowhere(torrent, Current(), SCHEDULING);
      FillAll(Current());
      mid := Current();
      LeadsNowhere(torrent, mid, SCHEDULING);
      SameAsBefore(peers.conns, true);
      var todo := peers.conns.Keys;
      NobodyLeftOut(torrent, Value(), todo);
      while todo != {}
        invariant Valid() && queue == [] && todo <= peers.conns.Keys == old(peers.conns).Keys
        invariant NextServed(torrent, mid.s.swarm.conns, Value(), todo) && Leads(torrent, mid, SCHEDULING, Current())
        decreases todo
      {
        var p :| p in todo;
        assert todo - {p} + {p} == todo;
        todo := todo - {p};
        ghost var before := Value();
        var c := peers.conns[p];
        var asked := false;
        if !c.peerChoking && c.snubbed && c.pending == [] {
          asked := AskOne(p, mid);
        }
        SnubbedServed(torrent, mid.s.swarm.conns, before, p, todo, asked, Value());
      }
      AllNextServed(torrent, mid.s.swarm.conns, Value());
    }
  }

  // ----- a round of the trackers, on values -----

  ghost function PacketPart(input: Input): Option<T.Step>
  {
    if input.ready then Some(T.Packet(input.inbox, input.failed, input.clock)) else None
  }

  // all packet steps, then all timer steps
  lemma RoundLeads(t: Torrent, j: Joint, inputs: seq<Input>, now: int, j': Joint)
    requires |inputs| == |j.trackers| == |j'.trackers| && j'.x == j.x
    requires forall i :: 0 <= i < |inputs| ==>
               j'.trackers[i] == T.Next(PacketStep(j.trackers[i], inputs[i]), T.Timer(now, inputs[i].env))
    ensures TrackersLead(t, j, j')
  {
    hide T.Next, TrackersLead;
    var n := |inputs|;
    var packets: seq<Option<T.Step>> := seq(n, i requires 0 <= i < n => PacketPart(inputs[i]));
    var timers: seq<Option<T.Step>> := seq(n, i requires 0 <= i < n => Some(T.Timer(now, inputs[i].env)));
    LeadsHere(t, j);
    PassLeads(t, j, j, packets, n);
    var mid := Passed(j, packets, n);
    PassLeads(t, j, mid, timers, n);
    assert Passed(mid, timers, n).trackers == j'.trackers;
  }

  lemma CompletedOnce(t: Torrent, x: State, y: State)
    requires Inv(t, x) && CompleteStep(t, x, y)
    ensures Inv(t, y) && Moves(t, x, Action.NoticeComplete, y)
  {
    hide Inv;
    InvShaped(t, x);
    CompleteInv(t, x, y);
  }

  lemma NotifiedMeansCompleted(t: Torrent, x: State)
    requires Inv(t, x)
    ensures x.s.notified ==> x.s.completed
  {
  }

  // ----- scheduling, on values -----

  // the peer has room for another request only if it has nothing left that is wanted
  ghost predicate Served(t: Torrent, s: E.Session, p: nat)
  {
    p in s.swarm.conns && !s.swarm.conns[p].peerChoking
        && (if s.swarm.conns[p].snubbed then s.swarm.conns[p].pending == [] else |s.swarm.conns[p].pending| < 32) ==>
      P.Exhausted(t.Count(), s.pieces, s.swarm.conns[p].has, p)
  }

  // all healthy peers are served, these aside
  ghost predicate AllServedBut(t: Torrent, s: E.Session, todo: set<nat>)
  {
    forall p :: p in s.swarm.conns && p !in todo && !s.swarm.conns[p].snubbed ==> Served(t, s, p)
  }

  // the healthy connections are as they were, or the snubbed ones
  ghost predicate SameAside(conns: map<nat, Conn>, conns': map<nat, Conn>, healthy: bool)
  {
    && conns'.Keys == conns.Keys
    && forall p :: p in conns ==>
         && conns'[p].snubbed == conns[p].snubbed
         && (conns[p].snubbed != healthy ==> conns'[p] == conns[p])
  }

  // one more request to the peer, and nothing new to do for anybody else
  ghost predicate AsksMore(t: Torrent, s: E.Session, peer: nat, s': E.Session)
  {
    && peer in s.swarm.conns && s'.swarm.conns.Keys == s.swarm.conns.Keys
    && var c, c' := s.swarm.conns[peer], s'.swarm.conns[peer];
    && c'.peerChoking == c.peerChoking && c'.snubbed == c.snubbed
    && |c'.pending| == |c.pending| + 1
    && (forall p :: p in s.swarm.conns && p != peer ==> s'.swarm.conns[p] == s.swarm.conns[p])
    && (forall p :: p != peer && Served(t, s, p) ==> Served(t, s', p))
    && (c.snubbed ==> Served(t, s', peer))
  }

  lemma SameAsBefore(conns: map<nat, Conn>, healthy: bool)
    ensures SameAside(conns, conns, healthy)
  {
  }

  lemma AskedHealthy(t: Torrent, conns: map<nat, Conn>, s: E.Session, peer: nat, todo: set<nat>, s': E.Session)
    requires AsksMore(t, s, peer, s') && AllServedBut(t, s, todo) && peer in todo && !s.swarm.conns[peer].snubbed
    requires SameAside(conns, s.swarm.conns, false)
    ensures AllServedBut(t, s', todo) && SameAside(conns, s'.swarm.conns, false)
    ensures s'.swarm.conns.Keys == s.swarm.conns.Keys
    ensures var c, c' := s.swarm.conns[peer], s'.swarm.conns[peer];
            c'.peerChoking == c.peerChoking && !c'.snubbed && |c'.pending| == |c.pending| + 1
  {
    hide Served;
  }

  lemma FilledUp(t: Torrent, s: E.Session, peer: nat, todo: set<nat>, filling: bool)
    requires peer in s.swarm.conns && AllServedBut(t, s, todo + {peer})
    requires if filling then |s.swarm.conns[peer].pending| >= PIPELINE_DEPTH
             else s.swarm.conns[peer].peerChoking || s.swarm.conns[peer].snubbed || Served(t, s, peer)
    ensures AllServedBut(t, s, todo)
  {
  }

  // in the second round: the healthy peers are served and left alone, and so are the
  // snubbed ones whose turn it has been
  ghost predicate NextServed(t: Torrent, conns: map<nat, Conn>, s: E.Session, todo: set<nat>)
  {
    && SameAside(conns, s.swarm.conns, true)
    && forall p :: p in s.swarm.conns && (!s.swarm.conns[p].snubbed || p !in todo) ==> Served(t, s, p)
  }

  lemma NobodyLeftOut(t: Torrent, s: E.Session, todo: set<nat>)
    requires AllServedBut(t, s, {}) && todo == s.swarm.conns.Keys
    ensures NextServed(t, s.swarm.conns, s, todo)
  {
  }

  lemma SnubbedServed(t: Torrent, conns: map<nat, Conn>, s: E.Session, p: nat, todo: set<nat>, asked: bool,
                      s': E.Session)
    requires p in s.swarm.conns && NextServed(t, conns, s, todo + {p})
    requires var c := s.swarm.conns[p];
             if asked then c.snubbed && AsksMore(t, s, p, s')
             else s' == s && (c.peerChoking || !c.snubbed || c.pending != [] || Served(t, s, p))
    ensures NextServed(t, conns, s', todo) && s'.swarm.conns.Keys == s.swarm.conns.Keys
  {
    if asked {
      hide Served;
    }
  }

  lemma AllNextServed(t: Torrent, conns: map<nat, Conn>, s: E.Session)
    requires NextServed(t, conns, s, {})
    ensures SameAside(conns, s.swarm.conns, true) && forall p :: p in s.swarm.conns ==> Served(t, s, p)
  {
  }

  lemma AskKeepsServed(t: Torrent, x: State, peer: nat, now: int, picked: P.Pieces, req: BlockRequest, y: State)
    requires Shaped(t, x.s) && ScheduleStep(t, x, peer, now, picked, req, y)
    ensures AsksMore(t, x.s, peer, y.s)
  {
    assert y.s.swarm.conns.Keys == x.s.swarm.conns.Keys;
    forall p | p != peer && Served(t, x.s, p) ensures Served(t, y.s, p) {
      if p in x.s.swarm.conns && P.Exhausted(t.Count(), x.s.pieces, x.s.swarm.conns[p].has, p) {
        P.PickKeepsExhausted(t, x.s.pieces, x.s.swarm.conns[peer].has, x.s.swarm.frequency, peer, picked, Some(req),
                             x.s.swarm.conns[p].has, p);
      }
    }
  }

  lemma OneMoreAsked(t: Torrent, start: State, x: State, peer: nat, now: int, picked: P.Pieces, req: BlockRequest,
                     y: State)
    requires Inv(t, x) && Shaped(t, x.s) && ScheduleStep(t, x, peer, now, picked, req, y)
    requires Leads(t, start, SCHEDULING, x)
    ensures Inv(t, y) && AsksMore(t, x.s, peer, y.s) && Leads(t, start, SCHEDULING, y)
  {
    hide Inv, Leads, AsksMore;
    ScheduleInv(t, x, peer, now, picked, req, y);
    AskKeepsServed(t, x, peer, now, picked, req, y);
    LeadsStep(t, start, SCHEDULING, x, Schedule(peer, now, picked, req), y);
  }

  // ----- timeouts, on values -----

  // the connection without its stale requests; it is snubbed if it had any
  function Expired(c: Conn, cutoff: int): Conn
  {
    var k := StaleCount(c.pending, cutoff);
    if k == 0 then c else c.(pending := c.pending[k..], snubbed := true)
  }

  ghost predicate Trimmed(before: map<nat, Conn>, conns: map<nat, Conn>, cutoff: int, todo: set<nat>)
  {
    && conns.Keys == before.Keys
    && forall p :: p in conns ==> conns[p] == if p in todo then before[p] else Expired(before[p], cutoff)
  }

  lemma TrimmedIsFresh(t: Torrent, x: State, conns: map<nat, Conn>, cutoff: int)
    requires Inv(t, x) && Trimmed(x.s.swarm.conns, conns, cutoff, {})
    ensures forall p :: p in conns ==> NoneOlder(conns[p].pending, cutoff)
  {
    hide Inv;
    forall p | p in conns ensures NoneOlder(conns[p].pending, cutoff) {
      var pending := x.s.swarm.conns[p].pending;
      InSendOrder(t, x, p);
      StaleGone(pending, cutoff, x.s.clock);
      assert pending[0..] == pending;
    }
  }

  lemma InSendOrder(t: Torrent, x: State, p: nat)
    requires Inv(t, x) && p in x.s.swarm.conns
    ensures PendingOk(x.s.swarm.conns[p].pending, x.s.clock)
  {
    assert ConnOk(t, x.s, DeliveredTo(x.h, p), p, x.s.swarm.conns[p]);
  }

  ghost predicate NoneOlder(pending: seq<PendingRequest>, cutoff: int)
  {
    forall j :: 0 <= j < |pending| ==> pending[j].sentAt >= cutoff
  }

  // a list in send order has nothing stale behind its first fresh request
  lemma StaleGone(pending: seq<PendingRequest>, cutoff: int, clock: int)
    requires PendingOk(pending, clock)
    ensures NoneOlder(pending[StaleCount(pending, cutoff)..], cutoff)
  {
    var k := StaleCount(pending, cutoff);
    forall j | 0 <= j < |pending[k..]| ensures pending[k..][j].sentAt >= cutoff {
      assert pending[k].sentAt <= pending[k + j].sentAt;
    }
  }

  // the availability counters are 16-bit values
  lemma CountersFit(t: Torrent, x: State)
    requires Inv(t, x)
    ensures Shaped(t, x.s) && forall i :: 0 <= i < |x.s.swarm.frequency| ==> x.s.swarm.frequency[i] < 0x1_0000
  {
    forall i | 0 <= i < |x.s.swarm.frequency| ensures x.s.swarm.frequency[i] < 0x1_0000 {
      assert CountOk(x.s.swarm.frequency[i], Holders(x.s.swarm.conns, i), x.h.leaked[i]);
    }
  }

  // ----- banning several hosts -----

  lemma {:induction false} BansAppend(s: E.Session, hosts: seq<Host>, host: Host, order: Host -> seq<nat>)
    ensures E.BanHosts(s, hosts + [host], order) == E.BanHost(E.BanHosts(s, hosts, order), host, order(host))
    decreases |hosts|
  {
    if hosts == [] {
      assert ([] + [host])[1..] == [];
      assert E.BanHosts(E.BanHost(s, host, order(host)), [], order) == E.BanHost(s, host, order(host));
    } else {
      BansAppend(E.BanHost(s, hosts[0], order(hosts[0])), hosts[1..], host, order);
      assert (hosts + [host])[1..] == hosts[1..] + [host];
    }
  }

  lemma {:induction false} BansSameOrder(s: E.Session, hosts: seq<Host>, order: Host -> seq<nat>,
                                         order': Host -> seq<nat>)
    requires forall h :: h in hosts ==> order(h) == order'(h)
    ensures E.BanHosts(s, hosts, order) == E.BanHosts(s, hosts, order')
    decreases |hosts|
  {
    if hosts == [] {
    } else {
      BansSameOrder(E.BanHost(s, hosts[0], order(hosts[0])), hosts[1..], order, order');
    }
  }

  lemma BannedAlready(s: E.Session, host: Host, order: seq<nat>)
    requires host in s.swarm.banned
    ensures E.BanHost(s, host, order) == s
  {
  }

  // listing the connections again after all of them were listed changes nothing
  lemma BanMore(sw: Swarm, host: Host, listed: seq<nat>, more: seq<nat>)
    requires Lists(listed, sw) && host !in sw.banned
    ensures Ban(sw, host, listed + more) == Ban(sw, host, listed)
  {
    DropHostFinished(sw.(banned := sw.banned + {host}), host, listed, more);
  }

  lemma BanShrinks(sw: Swarm, host: Host, order: seq<nat>)
    requires host !in sw.banned
    ensures var sw' := Ban(sw, host, order).0;
            (forall p :: p in sw'.conns ==> p in sw.conns) && sw'.banned == sw.banned + {host}
  {
    DropHostKeeps(sw.(banned := sw.banned + {host}), host, order);
    Membership.DropHostKeepsBanned(sw.(banned := sw.banned + {host}), host, order);
  }

  lemma {:induction false} ReleaseAppend(ps: P.Pieces, evs: seq<Event>, ev: Event)
    ensures E.ReleaseEvents(ps, evs + [ev]) ==
            var done := E.ReleaseEvents(ps, evs);
            if ev.Dropped? || ev.Choked? then P.Release(done, ev.released) else done
    decreases |evs|
  {
    if evs == [] {
      assert ([] + [ev])[1..] == [];
    } else {
      assert (evs + [ev])[1..] == evs[1..] + [ev];
      ReleaseAppend(if evs[0].Dropped? || evs[0].Choked? then P.Release(ps, evs[0].released) else ps, evs[1..], ev);
    }
  }
}
