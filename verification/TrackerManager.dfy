// TrackerSession and TrackerManager (src/runtime/managers/tracker_manager.cpp):
// the fields change in place, one tracker at a time.
module TrackerManagers {
  import opened Types
  import opened TrackerReplies
  import opened T = Trackers

  class TrackerSession {
    var state: TrackerState
    var open: bool
    var connectionId: nat
    var transactionId: Word32
    var connectedAt: int
    var nextAction: int
    var retries: nat
    var inFlight: Event
    var reported: Reported
    var interval: nat
    ghost var log: Log

    ghost function Value(): Tracker
      reads this
    {
      Tracker(state, open, connectionId, transactionId, connectedAt, nextAction, retries, inFlight, reported, interval)
    }

    constructor ()
      ensures Value() == NEW_TRACKER && log == Log([], [], [])
    {
      state, open, connectionId, transactionId, connectedAt := Disconnected, false, 0, 0, 0;
      nextAction, retries, inFlight, reported, interval := 0, 0, EventNone, ReportedNothing, 0;
      log := Log([], [], []);
    }

    method FailBackoff(clock: int)
      modifies this
      ensures Value() == T.FailBackoff(old(Value()), clock) && log == old(log)
    {
      state := Disconnected;
      retries := Min(retries + 1, MAX_RETRIES);
      nextAction := clock + Timeout(retries);
    }

    method FailSend(clock: int)
      modifies this
      ensures Value() == T.FailSend(old(Value()), clock) && log == old(log)
    {
      open := false;
      FailBackoff(clock);
    }

    method OnTimeout(now: int)
      modifies this
      ensures Value() == T.OnTimeout(old(Value()), now) && log == old(log)
    {
      retries := Min(retries + 1, MAX_RETRIES);
      state := Disconnected;
      nextAction := now;
    }

    method SendConnect(env: Env)
      modifies this
      ensures Value() == T.SendConnect(old(Value()), env) && log == old(log)
    {
      if !open {
        state := Resolving;
        return;
      }
      transactionId := env.txn;
      if !env.sent {
        FailSend(env.clock);
        return;
      }
      state := Connecting;
      connectedAt := env.clock;
      nextAction := env.clock + Timeout(retries);
    }

    method RecvConnect(inbox: seq<Bytes>, failed: bool, clock: int) returns (ok: bool)
      modifies this
      ensures (Value(), ok) == T.RecvConnect(old(Value()), inbox, failed, clock)
      ensures log == if inbox != [] && IsConnectReply(inbox[0], old(transactionId))
                     then old(log).(ids := old(log.ids) + [ConnectionId(connectionId, clock)]) else old(log)
    {
      if inbox == [] { return !failed; }
      var buf := inbox[0];
      if !IsConnectReply(buf, transactionId) { return true; }
      connectionId := ReadBe64(buf[8..]);
      connectedAt := clock;
      retries := 0;
      state := Connected;
      log := log.(ids := log.ids + [ConnectionId(connectionId, clock)]);
      return true;
    }

    method SendAnnounce(complete: bool, stopping: bool, env: Env) returns (ghost sent: Option<Event>)
      modifies this
      ensures (Value(), sent) == T.SendAnnounce(old(Value()), complete, stopping, env) && log == old(log)
    {
      if env.clock - connectedAt >= ID_LIFETIME {
        state := Disconnected;
        nextAction := env.clock;
        return None;
      }
      var event := NextEvent(complete, stopping);
      transactionId := env.txn;
      inFlight := event;
      if !env.sent {
        FailSend(env.clock);
        return None;
      }
      state := Announcing;
      nextAction := env.clock + Timeout(retries);
      return Some(event);
    }

    method NextEvent(complete: bool, stopping: bool) returns (event: Event)
      ensures event == PendingEvent(Value(), complete, stopping)
    {
      if stopping { return EventStopped; }
      match reported
      case ReportedNothing => return EventStarted;
      case ReportedStarted => return if complete then EventCompleted else EventNone;
      case ReportedCompleted => return EventNone;
    }

    // drains the socket up to the first datagram that is not ignored
    method RecvAnnounce(inbox: seq<Bytes>, failed: bool, clock: int) returns (ok: bool, peers: seq<PeerAddr>)
      modifies this
      ensures var r := T.RecvAnnounce(old(Value()), inbox, failed, clock);
        && Value() == r.t && ok == r.ok && peers == r.peers
        && log == if r.acked.Some? then old(log).(acked := old(log.acked) + [r.acked.value]) else old(log)
    {
      var k := 0;
      while k < |inbox|
        invariant 0 <= k <= |inbox| && Value() == old(Value()) && log == old(log)
        invariant T.RecvAnnounce(old(Value()), inbox[k..], failed, clock) ==
                  T.RecvAnnounce(old(Value()), inbox, failed, clock)
      {
        var r := ParseAnnounceReply(inbox[k], transactionId);
        assert inbox[k..][1..] == inbox[k + 1..];
        if r.Ignored? {
          k := k + 1;
          continue;
        }
        if r.Refused? { return false, []; }
        log := log.(acked := log.acked + [inFlight]);
        if inFlight == EventStopped {
          state := Stopped;
          open := false;
          return true, [];
        }
        if inFlight == EventStarted { reported := ReportedStarted; }
        if inFlight == EventCompleted { reported := ReportedCompleted; }
        interval := Clamp(r.interval);
        retries := 0;
        state := Idle;
        nextAction := clock + interval * SECOND;
        return true, r.peers;
      }
      return !failed, [];
    }

    method Advance(complete: bool, stopping: bool, now: int, env: Env)
      modifies this
      ensures View(Value(), complete, stopping, log) ==
              AfterTimer(View(old(Value()), complete, stopping, old(log)), now, env)
    {
      match state
      case Disconnected =>
        if now >= nextAction { SendConnect(env); }
      case Resolving =>
        if env.lookup == Pending { return; }
        if env.lookup == Failed {
          FailBackoff(env.clock);
          return;
        }
        open := true;
        SendConnect(env);
      case Connecting =>
        if now >= nextAction { OnTimeout(now); }
      case Announcing =>
        if now >= nextAction { OnTimeout(now); }
      case Connected =>
        ghost var acks := |log.acked|;
        ghost var sent := SendAnnounce(complete, stopping, env);
        if sent.Some? {
          log := log.(sent := log.sent + [Announce(sent.value, env.clock, ConnectionId(connectionId, connectedAt),
                                                   acks)]);
        }
      case Idle =>
        if now >= nextAction { state := Disconnected; }
      case Stopped =>
    }

    // the packet pass for one tracker
    method OnPacket(inbox: seq<Bytes>, failed: bool, clock: int, ghost complete: bool,
                    ghost stopping: bool) returns (peers: seq<PeerAddr>)
      modifies this
      ensures View(Value(), complete, stopping, log) ==
              AfterPacket(View(old(Value()), complete, stopping, old(log)), inbox, failed, clock)
      ensures peers == if old(state) == Announcing then T.RecvAnnounce(old(Value()), inbox, failed, clock).peers else []
    {
      var ok := true;
      peers := [];
      if state == Connecting {
        ok := RecvConnect(inbox, failed, clock);
      } else if state == Announcing {
        ok, peers := RecvAnnounce(inbox, failed, clock);
      }
      if !ok { FailBackoff(clock); }
    }
  }

  // what poll and the environment have for one tracker this tick
  datatype Input = Input(ready: bool, inbox: seq<Bytes>, failed: bool, clock: int, env: Env)

  ghost function PacketStep(x: View, input: Input): View
  {
    if input.ready then Next(x, Packet(input.inbox, input.failed, input.clock)) else x
  }

  // the peers named in the replies of one packet pass, tracker by tracker
  ghost function Gathered(xs: seq<View>, inputs: seq<Input>): seq<PeerAddr>
    requires |xs| == |inputs|
  {
    if xs == [] then []
    else
      var n := |xs| - 1;
      Gathered(xs[..n], inputs[..n]) +
      if inputs[n].ready && xs[n].t.state == Announcing
      then T.RecvAnnounce(xs[n].t, inputs[n].inbox, inputs[n].failed, inputs[n].clock).peers else []
  }

  class TrackerManager {
    const trackers: seq<TrackerSession>
    var downloadComplete: bool
    var stopping: bool

    ghost predicate Distinct()
    {
      forall i, j :: 0 <= i < j < |trackers| ==> trackers[i] != trackers[j]
    }

    ghost function ViewOf(i: nat): View
      requires i < |trackers|
      reads this, trackers
    {
      View(trackers[i].Value(), downloadComplete, stopping, trackers[i].log)
    }

    // every tracker meets the invariant of the single-tracker runs
    ghost predicate Valid()
      reads this, trackers
    {
      Distinct() && forall i :: 0 <= i < |trackers| ==> Inv(ViewOf(i))
    }

    constructor (count: nat)
      ensures Valid() && fresh(trackers) && |trackers| == count && !downloadComplete && !stopping
      ensures forall i :: 0 <= i < count ==> T.Init(ViewOf(i))
    {
      var list: seq<TrackerSession> := [];
      while |list| < count
        invariant |list| <= count && fresh(list)
        invariant forall i, j :: 0 <= i < j < |list| ==> list[i] != list[j]
        invariant forall i :: 0 <= i < |list| ==> list[i].Value() == NEW_TRACKER && list[i].log == Log([], [], [])
      {
        var t := new TrackerSession();
        list := list + [t];
      }
      trackers := list;
      downloadComplete, stopping := false, false;
    }

    ghost function Views(): (xs: seq<View>)
      reads this, trackers
      ensures |xs| == |trackers| && forall i :: 0 <= i < |trackers| ==> xs[i] == ViewOf(i)
    {
      seq(|trackers|, i requires 0 <= i < |trackers| reads this, trackers => ViewOf(i))
    }

    // Every tracker takes its packet step, if poll has something for it, and then
    // its timer step; inputs for another number of trackers are refused.
    method Tick(inputs: seq<Input>, now: int) returns (found: seq<PeerAddr>)
      requires Valid()
      modifies trackers
      ensures Valid()
      ensures |inputs| != |trackers| ==> found == [] && forall i :: 0 <= i < |trackers| ==> ViewOf(i) == old(ViewOf(i))
      ensures |inputs| == |trackers| ==> found == Gathered(old(Views()), inputs)
      ensures |inputs| == |trackers| ==>
        forall i :: 0 <= i < |trackers| ==>
            ViewOf(i) == Next(PacketStep(old(ViewOf(i)), inputs[i]), Timer(now, inputs[i].env))
    {
      found := [];
      if |inputs| != |trackers| { return; }
      found := PacketPass(inputs);
      TimerPass(inputs, now);
    }

    method PacketPass(inputs: seq<Input>) returns (found: seq<PeerAddr>)
      requires Valid() && |inputs| == |trackers|
      modifies trackers
      ensures Valid() && forall i :: 0 <= i < |trackers| ==> ViewOf(i) == PacketStep(old(ViewOf(i)), inputs[i])
      ensures found == Gathered(old(Views()), inputs)
    {
      hide Inv, AfterPacket, T.RecvAnnounce;
      found := [];
      ghost var xs := Views();
      for i := 0 to |trackers|
        invariant found == Gathered(xs[..i], inputs[..i])
        invariant forall j :: 0 <= j < i ==> ViewOf(j) == PacketStep(old(ViewOf(j)), inputs[j])
        invariant forall j :: i <= j < |trackers| ==> ViewOf(j) == old(ViewOf(j))
        invariant Valid()
      {
        assert xs[..i + 1][..i] == xs[..i] && inputs[..i + 1][..i] == inputs[..i];
        if inputs[i].ready {
          PacketInv(ViewOf(i), inputs[i].inbox, inputs[i].failed, inputs[i].clock);
          var peers := trackers[i].OnPacket(inputs[i].inbox, inputs[i].failed, inputs[i].clock, downloadComplete,
                                            stopping);
          found := found + peers;
        }
      }
      assert xs[..|xs|] == xs && inputs[..|xs|] == inputs;
    }

    method TimerPass(inputs: seq<Input>, now: int)
      requires Valid() && |inputs| == |trackers|
      modifies trackers
      ensures Valid()
      ensures forall i :: 0 <= i < |trackers| ==> ViewOf(i) == Next(old(ViewOf(i)), Timer(now, inputs[i].env))
    {
      hide Inv, AfterTimer;
      for i := 0 to |trackers|
        invariant forall j :: 0 <= j < i ==> ViewOf(j) == Next(old(ViewOf(j)), Timer(now, inputs[j].env))
        invariant forall j :: i <= j < |trackers| ==> ViewOf(j) == old(ViewOf(j))
        invariant Valid()
      {
        TimerInv(ViewOf(i), now, inputs[i].env);
        trackers[i].Advance(downloadComplete, stopping, now, inputs[i].env);
      }
    }

    // only idle trackers that know of us are hurried
    method OnDownloadComplete(now: int)
      requires Valid()
      modifies this, trackers
      ensures Valid() && downloadComplete && stopping == old(stopping)
      ensures forall i :: 0 <= i < |trackers| ==> ViewOf(i) == Next(old(ViewOf(i)), Finish(now))
    {
      hide Inv;
      forall i | 0 <= i < |trackers| ensures Inv(Next(ViewOf(i), Finish(now))) {
        NextInv(ViewOf(i), Finish(now));
      }
      downloadComplete := true;
      for i := 0 to |trackers|
        invariant downloadComplete && stopping == old(stopping)
        invariant forall j :: 0 <= j < i ==> ViewOf(j) == Next(old(ViewOf(j)), Finish(now))
        invariant forall j :: i <= j < |trackers| ==> ViewOf(j) == old(ViewOf(j)).(complete := true)
      {
        var t := trackers[i];
        if t.state == Idle && t.reported == ReportedStarted {
          t.nextAction := now;
        }
      }
    }

    // trackers that never acknowledged us are done; the others go on to say stopped
    method BeginShutdown(now: int)
      requires Valid()
      modifies this, trackers
      ensures Valid() && stopping && downloadComplete == old(downloadComplete)
      ensures forall i :: 0 <= i < |trackers| ==> ViewOf(i) == Next(old(ViewOf(i)), Shutdown(now))
    {
      hide Inv;
      forall i | 0 <= i < |trackers| ensures Inv(Next(ViewOf(i), Shutdown(now))) {
        NextInv(ViewOf(i), Shutdown(now));
      }
      stopping := true;
      for i := 0 to |trackers|
        invariant stopping && downloadComplete == old(downloadComplete)
        invariant forall j :: 0 <= j < i ==> ViewOf(j) == Next(old(ViewOf(j)), Shutdown(now))
        invariant forall j :: i <= j < |trackers| ==> ViewOf(j) == old(ViewOf(j)).(stopping := true)
      {
        var t := trackers[i];
        if t.reported == ReportedNothing {
          t.state := Stopped;
          t.open := false;
        } else if t.state == Disconnected {
          t.nextAction := now;
        } else if t.state == Idle || t.state == Announcing {
          t.state := Connected;
          t.nextAction := now;
        }
      }
    }

    // shutdown is over when no tracker can send anything any more
    method ShutdownDone() returns (done: bool)
      ensures done <==> forall i :: 0 <= i < |trackers| ==> trackers[i].state == Stopped
    {
      for i := 0 to |trackers|
        invariant forall j :: 0 <= j < i ==> trackers[j].state == Stopped
      {
        if trackers[i].state != Stopped { return false; }
      }
      return true;
    }
  }
}
