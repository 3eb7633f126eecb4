// One tracker's connect/announce cycle (src/runtime/managers/tracker_manager.cpp),
// on values. What the sockets, the resolver, the clock and the random generator
// answer comes in with each step; a log remembers what was sent and acknowledged.
module Trackers {
  import opened Types
  import opened Wire
  import opened TrackerReplies

  datatype TrackerState = Disconnected | Resolving | Connecting | Connected | Announcing | Idle | Stopped
  datatype Event = EventNone | EventCompleted | EventStarted | EventStopped
  datatype Reported = ReportedNothing | ReportedStarted | ReportedCompleted

  // times are in milliseconds
  const SECOND: nat := 1000
  const ID_LIFETIME: nat := 60 * SECOND
  const MAX_RETRIES: nat := 8
  const MIN_INTERVAL: nat := 300
  const DEFAULT_INTERVAL: nat := 1800
  const MAX_INTERVAL: nat := 86400

  type Word32 = n: nat | n < 0x1_0000_0000

  datatype Tracker = Tracker(
    state: TrackerState, open: bool, connectionId: nat, transactionId: Word32, connectedAt: int, nextAction: int,
    retries: nat, inFlight: Event, reported: Reported, interval: nat)

  const NEW_TRACKER := Tracker(Disconnected, false, 0, 0, 0, 0, 0, EventNone, ReportedNothing, 0)

  datatype Lookup = Pending | Failed | Found

  // a clock reading, the resolver's answer, whether send succeeds, a random number
  datatype Env = Env(clock: int, lookup: Lookup, sent: bool, txn: Word32)

  // ----- the source's operations -----

  function Pow2(n: nat): (p: nat)
    ensures p >= 1
  {
    if n == 0 then 1 else 2 * Pow2(n - 1)
  }

  function Timeout(retries: nat): nat
  {
    15 * Pow2(retries) * SECOND
  }

  function Retried(t: Tracker): nat
  {
    Min(t.retries + 1, MAX_RETRIES)
  }

  function FailBackoff(t: Tracker, clock: int): Tracker
  {
    t.(state := Disconnected, retries := Retried(t), nextAction := clock + Timeout(Retried(t)))
  }

  function FailSend(t: Tracker, clock: int): Tracker
  {
    FailBackoff(t.(open := false), clock)
  }

  function OnTimeout(t: Tracker, now: int): Tracker
  {
    t.(state := Disconnected, retries := Retried(t), nextAction := now)
  }

  function SendConnect(t: Tracker, env: Env): Tracker
  {
    if !t.open then t.(state := Resolving)
    else
      var t1 := t.(transactionId := env.txn);
      if !env.sent then FailSend(t1, env.clock)
      else t1.(state := Connecting, connectedAt := env.clock, nextAction := env.clock + Timeout(t.retries))
  }

  function ReadBe64(b: Bytes): nat
    requires |b| >= 8
  {
    ReadBe32(b) * TWO_32 + ReadBe32(b[4..])
  }

  predicate IsConnectReply(buf: Bytes, txn: nat)
  {
    |buf| >= 16 && ReadBe32(buf) == 0 && ReadBe32(buf[4..]) == txn
  }

  // one datagram is read; false asks the caller to back off
  function RecvConnect(t: Tracker, inbox: seq<Bytes>, failed: bool, clock: int): (Tracker, bool)
  {
    if inbox == [] then (t, !failed)
    else if !IsConnectReply(inbox[0], t.transactionId) then (t, true)
    else (t.(connectionId := ReadBe64(inbox[0][8..]), connectedAt := clock, retries := 0, state := Connected), true)
  }

  function PendingEvent(t: Tracker, complete: bool, stopping: bool): Event
  {
    if stopping then EventStopped
    else
      match t.reported
      case ReportedNothing => EventStarted
      case ReportedStarted => if complete then EventCompleted else EventNone
      case ReportedCompleted => EventNone
  }

  // with the event that went out, if one did
  function SendAnnounce(t: Tracker, complete: bool, stopping: bool, env: Env): (Tracker, Option<Event>)
  {
    if env.clock - t.connectedAt >= ID_LIFETIME then (t.(state := Disconnected, nextAction := env.clock), None)
    else
      var event := PendingEvent(t, complete, stopping);
      var t1 := t.(transactionId := env.txn, inFlight := event);
      if !env.sent then (FailSend(t1, env.clock), None)
      else (t1.(state := Announcing, nextAction := env.clock + Timeout(t.retries)), Some(event))
  }

  function Clamp(interval: nat): nat
  {
    var n := if interval == 0 then DEFAULT_INTERVAL else interval;
    if n < MIN_INTERVAL then MIN_INTERVAL else if n > MAX_INTERVAL then MAX_INTERVAL else n
  }

  // what the tracker's answer to the announce in flight does
  function Acknowledged(t: Tracker, interval: nat, clock: int): Tracker
  {
    if t.inFlight == EventStopped then t.(state := Stopped, open := false)
    else
      t.(reported := match t.inFlight
                     case EventStarted => ReportedStarted
                     case EventCompleted => ReportedCompleted
                     case _ => t.reported,
         interval := Clamp(interval), retries := 0, state := Idle, nextAction := clock + Clamp(interval) * SECOND)
  }

  datatype Received = Received(t: Tracker, ok: bool, acked: Option<Event>, peers: seq<PeerAddr>)

  // the first datagram that is not ignored decides
  function RecvAnnounce(t: Tracker, inbox: seq<Bytes>, failed: bool, clock: int): Received
  {
    if inbox == [] then Received(t, !failed, None, [])
    else
      match ReplyOf(inbox[0], t.transactionId)
      case Ignored => RecvAnnounce(t, inbox[1..], failed, clock)
      case Refused(_) => Received(t, false, None, [])
      case Granted(interval, _, _, peers) =>
        Received(Acknowledged(t, interval, clock), true, Some(t.inFlight),
                 if t.inFlight == EventStopped then [] else peers)
  }

  function Advance(t: Tracker, complete: bool, stopping: bool, now: int, env: Env): (Tracker, Option<Event>)
  {
    match t.state
    case Disconnected => (if now >= t.nextAction then SendConnect(t, env) else t, None)
    case Resolving =>
      (match env.lookup
       case Pending => t
       case Failed => FailBackoff(t, env.clock)
       case Found => SendConnect(t.(open := true), env), None)
    case Connecting => (if now >= t.nextAction then OnTimeout(t, now) else t, None)
    case Announcing => (if now >= t.nextAction then OnTimeout(t, now) else t, None)
    case Connected => SendAnnounce(t, complete, stopping, env)
    case Idle => (if now >= t.nextAction then t.(state := Disconnected) else t, None)
    case Stopped => (t, None)
  }

  function Hurried(t: Tracker, now: int): Tracker
  {
    if t.state == Idle && t.reported == ReportedStarted then t.(nextAction := now) else t
  }

  function Withdrawn(t: Tracker, now: int): Tracker
  {
    if t.reported == ReportedNothing then t.(state := Stopped, open := false)
    else
      match t.state
      case Disconnected => t.(nextAction := now)
      case Idle => t.(state := Connected, nextAction := now)
      case Announcing => t.(state := Connected, nextAction := now)
      case _ => t
  }

  // ----- steps -----

  datatype ConnectionId = ConnectionId(id: nat, at: int)

  // an announce that went out: when, under which id, after how many acknowledgements
  datatype Announce = Announce(event: Event, at: int, id: ConnectionId, acks: nat)

  // ids: the connection ids received; sent: the announces; acked: the events acknowledged
  datatype Log = Log(ids: seq<ConnectionId>, sent: seq<Announce>, acked: seq<Event>)

  datatype View = View(t: Tracker, complete: bool, stopping: bool, log: Log)

  datatype Step =
    | Packet(inbox: seq<Bytes>, failed: bool, clock: int)
    | Timer(now: int, env: Env)
    | Finish(now: int)
    | Shutdown(now: int)

  ghost predicate Init(x: View)
  {
    x == View(NEW_TRACKER, false, false, Log([], [], []))
  }

  function OrBackoff(t: Tracker, ok: bool, clock: int): Tracker
  {
    if ok then t else FailBackoff(t, clock)
  }

  function AfterPacket(x: View, inbox: seq<Bytes>, failed: bool, clock: int): View
  {
    match x.t.state
    case Connecting =>
      var (t, ok) := RecvConnect(x.t, inbox, failed, clock);
      var log := if t.state == Connected then x.log.(ids := x.log.ids + [ConnectionId(t.connectionId, clock)])
          else x.log;
      x.(t := OrBackoff(t, ok, clock), log := log)
    case Announcing =>
      var r := RecvAnnounce(x.t, inbox, failed, clock);
      var log := if r.acked.Some? then x.log.(acked := x.log.acked + [r.acked.value]) else x.log;
      x.(t := OrBackoff(r.t, r.ok, clock), log := log)
    case _ => x
  }

  function AfterTimer(x: View, now: int, env: Env): View
  {
    var (t, sent) := Advance(x.t, x.complete, x.stopping, now, env);
    var log := if sent.None? then x.log
               else x.log.(sent := x.log.sent + [Announce(sent.value, env.clock,
                                                          ConnectionId(t.connectionId, t.connectedAt), |x.log.acked|)]);
    x.(t := t, log := log)
  }

  function Next(x: View, step: Step): View
  {
    match step
    case Packet(inbox, failed, clock) => AfterPacket(x, inbox, failed, clock)
    case Timer(now, env) => AfterTimer(x, now, env)
    case Finish(now) => x.(complete := true, t := Hurried(x.t, now))
    case Shutdown(now) => x.(stopping := true, t := Withdrawn(x.t, now))
  }

  // ----- the language of acknowledged events -----

  datatype Phase = Fresh | Going | Done | Over | Broken

  function After(phase: Phase, event: Event): Phase
  {
    match (phase, event)
    case (Fresh, EventStarted) => Going
    case (Going, EventNone) => Going
    case (Going, EventCompleted) => Done
    case (Done, EventNone) => Done
    case (Going, EventStopped) => Over
    case (Done, EventStopped) => Over
    case _ => Broken
  }

  function PhaseOf(events: seq<Event>): Phase
  {
    if events == [] then Fresh else After(PhaseOf(events[..|events| - 1]), events[|events| - 1])
  }

  function Nones(n: nat): seq<Event>
  {
    seq(n, _ => EventNone)
  }

  // started none* (completed none*)? stopped?, or nothing yet
  ghost predicate InLanguage(events: seq<Event>)
  {
    events == [] || exists m: nat, completed: bool, n: nat, stopped: bool :: events == Word(m, completed, n, stopped)
  }

  function Word(m: nat, completed: bool, n: nat, stopped: bool): seq<Event>
  {
    [EventStarted] + Nones(m) + (if completed then [EventCompleted] + Nones(n) else []) + (if stopped
        then [EventStopped] else [])
  }

  lemma PhaseAppend(events: seq<Event>, event: Event)
    ensures PhaseOf(events + [event]) == After(PhaseOf(events), event)
  {
    assert (events + [event])[..|events|] == events;
  }

  // the phases recognise words of the language
  lemma {:induction false} PhaseWord(events: seq<Event>)
    requires PhaseOf(events) != Broken
    ensures InLanguage(events)
    ensures PhaseOf(events) == Going ==> exists m: nat :: events == Word(m, false, 0, false)
    ensures PhaseOf(events) == Done ==> exists m: nat, n: nat :: events == Word(m, true, n, false)
    ensures PhaseOf(events) == Fresh <==> events == []
  {
    if events == [] {
    } else {
      var front, last := events[..|events| - 1], events[|events| - 1];
      assert events == front + [last];
      PhaseWord(front);
      match PhaseOf(front)
      case Fresh =>
        assert events == Word(0, false, 0, false);
      case Going =>
        var m: nat :| front == Word(m, false, 0, false);
        GoingOn(events, front, last, m);
      case Done =>
        var m: nat, n: nat :| front == Word(m, true, n, false);
        DoneOn(events, front, last, m, n);
    }
  }

  lemma GoingOn(events: seq<Event>, front: seq<Event>, last: Event, m: nat)
    requires front == Word(m, false, 0, false) && events == front + [last]
    ensures last == EventNone ==> events == Word(m + 1, false, 0, false)
    ensures last == EventCompleted ==> events == Word(m, true, 0, false)
    ensures last == EventStopped ==> events == Word(m, false, 0, true)
  {
    assert Nones(m + 1) == Nones(m) + [EventNone];
  }

  lemma DoneOn(events: seq<Event>, front: seq<Event>, last: Event, m: nat, n: nat)
    requires front == Word(m, true, n, false) && events == front + [last]
    ensures last == EventNone ==> events == Word(m, true, n + 1, false)
    ensures last == EventStopped ==> events == Word(m, true, n, true)
  {
    assert Nones(n + 1) == Nones(n) + [EventNone];
  }

  // ----- what every step keeps -----

  // only these states use the socket, and Stopped has given it up
  ghost predicate SocketOk(t: Tracker)
  {
    && (t.state == Connecting || t.state == Connected || t.state == Announcing || t.state == Idle ==> t.open)
    && (t.state == Resolving || t.state == Stopped ==> !t.open)
  }

  ghost predicate TimesOk(t: Tracker, sent: seq<Announce>)
  {
    && t.retries <= MAX_RETRIES
    && (t.state == Connected || t.state == Announcing || t.state == Idle ==> t.retries == 0)
    && (t.state == Connecting ==> t.nextAction == t.connectedAt + Timeout(t.retries))
    && (t.state == Announcing ==> sent != [] && t.nextAction == sent[|sent| - 1].at + Timeout(0))
    && (t.state == Idle ==> MIN_INTERVAL <= t.interval <= MAX_INTERVAL)
  }

  ghost predicate IdOk(t: Tracker, ids: seq<ConnectionId>)
  {
    t.state == Connected || t.state == Announcing || t.state == Idle ==>
      ids != [] && ids[|ids| - 1] == ConnectionId(t.connectionId, t.connectedAt)
  }

  // how far the acknowledged events have got
  ghost predicate ReportOk(x: View)
  {
    && PhaseOf(x.log.acked) ==
         (if x.t.state == Stopped && x.log.acked != [] && x.log.acked[|x.log.acked| - 1] == EventStopped then Over
                                else match x.t.reported
                                     case ReportedNothing => Fresh
                                     case ReportedStarted => Going
                                     case ReportedCompleted => Done)
    && (x.t.state == Stopped ==> x.stopping)
    && (x.stopping && x.t.state != Stopped ==> x.t.reported != ReportedNothing)
    && (x.t.reported == ReportedCompleted ==> x.complete)
  }

  // the announce in flight is the one whose turn it is
  ghost predicate FlightOk(x: View)
  {
    x.t.state == Announcing ==>
      if x.stopping then x.t.inFlight == EventStopped
      else
        || x.t.inFlight == PendingEvent(x.t, false, false)
        || (x.complete && x.t.inFlight == PendingEvent(x.t, true, false))
  }

  ghost predicate SentOk(a: Announce, x: View)
  {
    && a.id in x.log.ids && a.at - a.id.at < ID_LIFETIME
    && a.acks <= |x.log.acked|
    && After(PhaseOf(x.log.acked[..a.acks]), a.event) != Broken
    && (a.event == EventCompleted ==> x.complete)
    && (a.event == EventStopped ==> x.stopping)
  }

  ghost predicate StateOk(x: View)
  {
    SocketOk(x.t) && TimesOk(x.t, x.log.sent) && IdOk(x.t, x.log.ids) && ReportOk(x) && FlightOk(x)
  }

  ghost predicate Inv(x: View)
  {
    StateOk(x) && forall a :: a in x.log.sent ==> SentOk(a, x)
  }

  lemma PacketState(x: View, inbox: seq<Bytes>, failed: bool, clock: int)
    requires StateOk(x)
    ensures StateOk(AfterPacket(x, inbox, failed, clock))
  {
    hide Timeout, StateOk, RecvAnnounce, IsConnectReply, ReadBe64, Acknowledged;
    if x.t.state == Connecting {
      var t := RecvConnect(x.t, inbox, failed, clock).0;
      if t.state == Connected {
        ConnectedState(x, t, clock);
      } else if failed && inbox == [] {
        BackoffState(x, clock);
      }
    } else if x.t.state == Announcing {
      RecvAnnounceCases(x.t, inbox, failed, clock);
      var r := RecvAnnounce(x.t, inbox, failed, clock);
      if r.acked.Some? {
        var interval :| r.t == Acknowledged(x.t, interval, clock);
        AckedState(x, interval, clock);
      } else if !r.ok {
        BackoffState(x, clock);
      }
    }
  }

  lemma BackoffState(x: View, clock: int)
    requires StateOk(x) && x.t.state != Stopped
    ensures StateOk(x.(t := FailBackoff(x.t, clock)))
  {
    StartsOver(x, FailBackoff(x.t, clock));
  }

  lemma ConnectedState(x: View, t: Tracker, clock: int)
    requires StateOk(x) && x.t.state == Connecting
    requires t == x.t.(connectionId := t.connectionId, connectedAt := clock, retries := 0, state := Connected)
    ensures StateOk(x.(t := t, log := x.log.(ids := x.log.ids + [ConnectionId(t.connectionId, clock)])))
  {
  }

  lemma AckedState(x: View, interval: nat, clock: int)
    requires StateOk(x) && x.t.state == Announcing
    ensures StateOk(x.(t := Acknowledged(x.t, interval, clock), log := x.log.(acked := x.log.acked + [x.t.inFlight])))
  {
    hide After, PhaseOf, Timeout;
    PhaseAppend(x.log.acked, x.t.inFlight);
    TurnTaken(x);
  }

  // an acknowledgement moves the phase where the report says
  lemma TurnTaken(x: View)
    requires ReportOk(x) && FlightOk(x) && x.t.state == Announcing
    ensures var phase := After(PhaseOf(x.log.acked), x.t.inFlight);
      phase == match x.t.inFlight
               case EventStopped => Over
               case EventStarted => Going
               case EventCompleted => Done
               case EventNone => if x.t.reported == ReportedStarted then Going else Done
    ensures x.t.inFlight == EventNone ==> x.t.reported != ReportedNothing
    ensures x.t.inFlight == EventCompleted ==> x.complete
  {
  }

  lemma PacketInv(x: View, inbox: seq<Bytes>, failed: bool, clock: int)
    requires Inv(x)
    ensures Inv(AfterPacket(x, inbox, failed, clock))
  {
    hide StateOk, RecvAnnounce, RecvConnect, After;
    var y := AfterPacket(x, inbox, failed, clock);
    PacketState(x, inbox, failed, clock);
    forall a | a in y.log.sent ensures SentOk(a, y) {
      assert SentOk(a, x);
      assert y.log.acked[..a.acks] == x.log.acked[..a.acks];
    }
  }

  lemma {:induction false} RecvAnnounceCases(t: Tracker, inbox: seq<Bytes>, failed: bool, clock: int)
    ensures var r := RecvAnnounce(t, inbox, failed, clock);
      if r.acked.Some? then r.ok && r.acked.value == t.inFlight
          && exists interval :: r.t == Acknowledged(t, interval, clock)
      else r.t == t && r.peers == []
    decreases |inbox|
  {
    if inbox != [] && ReplyOf(inbox[0], t.transactionId).Ignored? {
      RecvAnnounceCases(t, inbox[1..], failed, clock);
    }
  }

  // a tracker that is not stopped may start over, with the same report
  lemma StartsOver(x: View, t: Tracker)
    requires StateOk(x) && x.t.state != Stopped && t.reported == x.t.reported && t.retries <= MAX_RETRIES
    requires
      || t.state == Disconnected
      || (t.state == Resolving && !t.open)
      || (t.state == Connecting && t.open && t.nextAction == t.connectedAt + Timeout(t.retries))
    ensures StateOk(x.(t := t))
  {
  }

  lemma TimerState(x: View, now: int, env: Env)
    requires StateOk(x)
    ensures StateOk(AfterTimer(x, now, env))
  {
    hide PhaseOf, Timeout;
    var (t, sent) := Advance(x.t, x.complete, x.stopping, now, env);
    if sent.None? && t != x.t {
      StartsOver(x, t);
    }
  }

  // what goes out is due, and under the id last received
  lemma TimerSends(x: View, now: int, env: Env)
    requires StateOk(x)
    ensures var sent := Advance(x.t, x.complete, x.stopping, now, env).1;
      sent.Some? ==>
        && x.t.state == Connected && sent.value == PendingEvent(x.t, x.complete, x.stopping)
        && SentOk(Announce(sent.value, env.clock, ConnectionId(x.t.connectionId, x.t.connectedAt), |x.log.acked|), x)
  {
    assert x.log.acked[..|x.log.acked|] == x.log.acked;
  }

  lemma TimerInv(x: View, now: int, env: Env)
    requires Inv(x)
    ensures Inv(AfterTimer(x, now, env))
  {
    hide StateOk, SentOk, FailSend, PendingEvent;
    var y := AfterTimer(x, now, env);
    TimerState(x, now, env);
    TimerSends(x, now, env);
    forall a | a in y.log.sent ensures SentOk(a, y) {
      assert SentOk(a, x);
      StillSent(a, x, y);
    }
  }

  lemma StillSent(a: Announce, x: View, y: View)
    requires SentOk(a, x) && x.log.ids == y.log.ids && x.log.acked == y.log.acked && x.complete == y.complete
    requires x.stopping == y.stopping
    ensures SentOk(a, y)
  {
  }

  lemma NextInv(x: View, step: Step)
    requires Inv(x)
    ensures Inv(Next(x, step))
  {
    match step
    case Packet(inbox, failed, clock) => PacketInv(x, inbox, failed, clock);
    case Timer(now, env) => TimerInv(x, now, env);
    case Finish(now) =>
      forall a | a in x.log.sent ensures SentOk(a, Next(x, step)) { assert SentOk(a, x); }
    case Shutdown(now) =>
      forall a | a in x.log.sent ensures SentOk(a, Next(x, step)) { assert SentOk(a, x); }
  }

  // ----- runs -----

  ghost predicate IsRun(xs: seq<View>, steps: seq<Step>)
  {
    |xs| == |steps| + 1 && Init(xs[0]) && forall k :: 0 <= k < |steps| ==> xs[k + 1] == Next(xs[k], steps[k])
  }

  lemma {:induction false} RunInv(xs: seq<View>, steps: seq<Step>, k: nat)
    requires IsRun(xs, steps) && k < |xs|
    ensures Inv(xs[k])
  {
    if k == 0 {
    } else {
      RunInv(xs, steps, k - 1);
      NextInv(xs[k - 1], steps[k - 1]);
      assert xs[k - 1 + 1] == Next(xs[k - 1], steps[k - 1]);
    }
  }

  // In every run the acknowledged events form a word of the language.
  lemma AckedInLanguage(xs: seq<View>, steps: seq<Step>, k: nat)
    requires IsRun(xs, steps) && k < |xs|
    ensures InLanguage(xs[k].log.acked)
  {
    RunInv(xs, steps, k);
    PhaseWord(xs[k].log.acked);
  }

  // Every announce went out under a connection id received less than 60 seconds
  // before; stopped only after an acknowledged started, completed only once the
  // download has finished.
  lemma AnnouncesAreSound(xs: seq<View>, steps: seq<Step>, k: nat, a: Announce)
    requires IsRun(xs, steps) && k < |xs| && a in xs[k].log.sent
    ensures a.id in xs[k].log.ids && a.at - a.id.at < ID_LIFETIME && a.acks <= |xs[k].log.acked|
    ensures a.event == EventStopped ==> xs[k].stopping && a.acks > 0 && xs[k].log.acked[0] == EventStarted
    ensures a.event == EventCompleted ==> exists j :: 0 <= j < k && steps[j].Finish?
  {
    RunInv(xs, steps, k);
    var acked := xs[k].log.acked[..a.acks];
    assert SentOk(a, xs[k]);
    if a.event == EventStopped { FirstIsStarted(acked); }
    if a.event == EventCompleted { FinishedBefore(xs, steps, k); }
  }

  lemma {:induction false} FirstIsStarted(events: seq<Event>)
    requires PhaseOf(events) != Broken && PhaseOf(events) != Fresh
    ensures events != [] && events[0] == EventStarted
  {
    var front := events[..|events| - 1];
    if PhaseOf(front) != Fresh {
      FirstIsStarted(front);
    } else {
      PhaseWord(front);
    }
  }

  lemma {:induction false} FinishedBefore(xs: seq<View>, steps: seq<Step>, k: nat)
    requires IsRun(xs, steps) && k < |xs| && xs[k].complete
    ensures exists j :: 0 <= j < k && steps[j].Finish?
  {
    if k == 0 {
    } else {
      assert xs[k - 1 + 1] == Next(xs[k - 1], steps[k - 1]);
      if !steps[k - 1].Finish? { FinishedBefore(xs, steps, k - 1); }
    }
  }

  // Stopped is for good, and nothing is sent or acknowledged after it.
  lemma {:induction false} StoppedIsFinal(xs: seq<View>, steps: seq<Step>, j: nat, k: nat)
    requires IsRun(xs, steps) && j <= k < |xs| && xs[j].t.state == Stopped
    ensures xs[k].t.state == Stopped && xs[k].log == xs[j].log
  {
    if j < k {
      StoppedIsFinal(xs, steps, j, k - 1);
      assert xs[k - 1 + 1] == Next(xs[k - 1], steps[k - 1]);
    }
  }

  // Deadlines: a connect waits 15*2^n seconds, n at most 8; an announce always 15,
  // since an accepted connect reply has just reset the count.
  lemma DeadlinesAreBounded(xs: seq<View>, steps: seq<Step>, k: nat)
    requires IsRun(xs, steps) && k < |xs|
    ensures var t := xs[k].t;
      && 15 * SECOND <= Timeout(t.retries) <= 3840 * SECOND
      && (t.state == Connecting ==> t.nextAction == t.connectedAt + Timeout(t.retries))
      && (t.state == Announcing ==>
          xs[k].log.sent != [] && t.nextAction == xs[k].log.sent[|xs[k].log.sent| - 1].at + 15 * SECOND)
      && (t.state == Connecting || t.state == Connected || t.state == Announcing || t.state == Idle ==> t.open)
  {
    RunInv(xs, steps, k);
    TimeoutRange(xs[k].t.retries);
  }

  lemma TimeoutRange(n: nat)
    requires n <= MAX_RETRIES
    ensures 15 * SECOND <= Timeout(n) <= 3840 * SECOND && Timeout(0) == 15 * SECOND
  {
    PowGrows(n, MAX_RETRIES);
    assert Pow2(8) == 256 by {
      assert Pow2(4) == 16;
    }
  }

  lemma {:induction false} PowGrows(m: nat, n: nat)
    requires m <= n
    ensures Pow2(m) <= Pow2(n)
  {
    if m < n { PowGrows(m, n - 1); }
  }
}
