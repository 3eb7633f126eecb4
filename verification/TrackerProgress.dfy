// What a tracker that answers gets to hear: from every state the connect/announce
// cycle can be completed in a few steps, and consecutive failures double the wait.
module TrackerProgress {
  import opened Types
  import opened Wire
  import opened TrackerReplies
  import opened Trackers

  function RunFrom(x: View, steps: seq<Step>): View
    decreases |steps|
  {
    if steps == [] then x else RunFrom(Next(x, steps[0]), steps[1..])
  }

  // the event whose turn it is
  function Due(x: View): Event
  {
    if x.t.state == Announcing then x.t.inFlight else PendingEvent(x.t, x.complete, x.stopping)
  }

  // exactly that event has been acknowledged
  ghost predicate Served(x: View, event: Event, y: View)
  {
    && y.log.acked == x.log.acked + [event]
    && y.t.state == (if event == EventStopped then Stopped else Idle)
    && y.stopping == x.stopping && y.complete == x.complete
  }

  // all of it happens at this time
  ghost predicate AllAt(steps: seq<Step>, now: int)
  {
    forall s :: s in steps ==>
      || (s.Packet? && s.clock == now)
      || (s.Timer? && s.now == now && s.env.clock == now)
  }

  lemma Prepend(x: View, step: Step, steps: seq<Step>)
    ensures RunFrom(x, [step] + steps) == RunFrom(Next(x, step), steps)
  {
    assert ([step] + steps)[1..] == steps;
  }

  function ConnectReply(txn: Word32): Bytes
  {
    Be32(0) + (Be32(txn) + [0, 0, 0, 0, 0, 0, 0, 0])
  }

  lemma ConnectReplyOk(txn: Word32)
    ensures IsConnectReply(ConnectReply(txn), txn)
  {
    Field(0, Be32(txn) + [0, 0, 0, 0, 0, 0, 0, 0]);
    Field(txn, [0, 0, 0, 0, 0, 0, 0, 0]);
  }

  lemma FromAnnouncing(x: View, now: int) returns (steps: seq<Step>)
    requires x.t.state == Announcing
    ensures |steps| == 1 && AllAt(steps, now) && Served(x, Due(x), RunFrom(x, steps))
  {
    var reply := EncodeReply(x.t.transactionId, 0, 0, 0, [], []);
    ReplyRoundTrip(x.t.transactionId, x.t.transactionId, 0, 0, 0, [], []);
    var step := Packet([reply], false, now);
    steps := [step] + [];
    Prepend(x, step, []);
  }

  // the id is young enough
  lemma FromConnected(x: View, now: int) returns (steps: seq<Step>)
    requires x.t.state == Connected && now - x.t.connectedAt < ID_LIFETIME
    ensures |steps| == 2 && AllAt(steps, now) && Served(x, Due(x), RunFrom(x, steps))
  {
    var step := Timer(now, Env(now, Pending, true, 0));
    var rest := FromAnnouncing(Next(x, step), now);
    steps := [step] + rest;
    Prepend(x, step, rest);
  }

  lemma FromConnecting(x: View, now: int) returns (steps: seq<Step>)
    requires x.t.state == Connecting
    ensures |steps| == 3 && AllAt(steps, now) && Served(x, Due(x), RunFrom(x, steps))
  {
    ConnectReplyOk(x.t.transactionId);
    var step := Packet([ConnectReply(x.t.transactionId)], false, now);
    var rest := FromConnected(Next(x, step), now);
    steps := [step] + rest;
    Prepend(x, step, rest);
  }

  lemma FromResolving(x: View, now: int) returns (steps: seq<Step>)
    requires x.t.state == Resolving
    ensures |steps| == 4 && AllAt(steps, now) && Served(x, Due(x), RunFrom(x, steps))
  {
    var step := Timer(now, Env(now, Found, true, 0));
    var rest := FromConnecting(Next(x, step), now);
    steps := [step] + rest;
    Prepend(x, step, rest);
  }

  lemma FromDisconnected(x: View, now: int) returns (steps: seq<Step>)
    requires x.t.state == Disconnected && now >= x.t.nextAction
    ensures |steps| <= 5 && AllAt(steps, now) && Served(x, Due(x), RunFrom(x, steps))
  {
    var step := Timer(now, Env(now, Pending, true, 0));
    var rest;
    if x.t.open {
      rest := FromConnecting(Next(x, step), now);
    } else {
      rest := FromResolving(Next(x, step), now);
    }
    steps := [step] + rest;
    Prepend(x, step, rest);
  }

  // Whatever has happened to a tracker, once its next action is due it can be
  // brought, by answers alone and at that very time, to acknowledge the event whose
  // turn it is; during shutdown that event is stopped, and the tracker ends Stopped.
  lemma EveryTrackerCanBeServed(x: View, now: int) returns (steps: seq<Step>)
    requires Inv(x) && x.t.state != Stopped && now >= x.t.nextAction
    ensures |steps| <= 6 && AllAt(steps, now) && Served(x, Due(x), RunFrom(x, steps))
    ensures x.stopping ==> RunFrom(x, steps).t.state == Stopped
  {
    match x.t.state
    case Announcing => steps := FromAnnouncing(x, now);
    case Connecting => steps := FromConnecting(x, now);
    case Resolving => steps := FromResolving(x, now);
    case Disconnected => steps := FromDisconnected(x, now);
    case Connected =>
      if now - x.t.connectedAt < ID_LIFETIME {
        steps := FromConnected(x, now);
      } else {
        steps := StartingOver(x, now);
      }
    case Idle => steps := StartingOver(x, now);
  }

  // an expired id, or an interval that is over
  lemma StartingOver(x: View, now: int) returns (steps: seq<Step>)
    requires
      || (x.t.state == Idle && now >= x.t.nextAction)
      || (x.t.state == Connected && now - x.t.connectedAt >= ID_LIFETIME)
    ensures |steps| <= 6 && AllAt(steps, now) && Served(x, Due(x), RunFrom(x, steps))
  {
    var step := Timer(now, Env(now, Pending, true, 0));
    var rest := FromDisconnected(Next(x, step), now);
    steps := [step] + rest;
    Prepend(x, step, rest);
  }

  // ----- failures -----

  // nobody answers, or the machine cannot send: the tracker backs off
  ghost predicate BacksOff(x: View, step: Step)
  {
    match step
    case Packet(inbox, failed, clock) =>
      || (x.t.state == Connecting && inbox == [] && failed)
      || (x.t.state == Announcing && !RecvAnnounce(x.t, inbox, failed, clock).ok)
    case Timer(now, env) =>
      || (x.t.state == Disconnected && now >= x.t.nextAction && x.t.open && !env.sent)
      || (x.t.state == Resolving && (env.lookup == Failed || (env.lookup == Found && !env.sent)))
      || (x.t.state == Connected && env.clock - x.t.connectedAt < ID_LIFETIME && !env.sent)
    case _ => false
  }

  function ClockOf(step: Step): int
  {
    match step
    case Packet(_, _, clock) => clock
    case Timer(_, env) => env.clock
    case Finish(now) => now
    case Shutdown(now) => now
  }

  // a reply did not come in time: the tracker connects again at once
  ghost predicate TimesOut(x: View, step: Step)
  {
    step.Timer? && (x.t.state == Connecting || x.t.state == Announcing) && step.now >= x.t.nextAction
  }

  // a reply came in
  ghost predicate Succeeds(x: View, step: Step)
  {
    step.Packet? &&
    (|| (x.t.state == Connecting && step.inbox != [] && IsConnectReply(step.inbox[0], x.t.transactionId))
     || (x.t.state == Announcing && RecvAnnounce(x.t, step.inbox, step.failed, step.clock).acked.Some?))
  }

  // failures since the last reply
  ghost function Failures(xs: seq<View>, steps: seq<Step>, k: nat): nat
    requires k <= |steps| <= |xs|
  {
    if k == 0 then 0
    else if Succeeds(xs[k - 1], steps[k - 1]) then 0
    else Failures(xs, steps, k - 1) + if BacksOff(xs[k - 1], steps[k - 1]) || TimesOut(xs[k - 1], steps[k - 1]) then 1
        else 0
  }

  lemma StepRetries(x: View, step: Step)
    requires Inv(x)
    ensures var y := Next(x, step);
      && y.t.retries == (if Succeeds(x, step) then 0
                         else if BacksOff(x, step) || TimesOut(x, step) then Min(x.t.retries + 1, MAX_RETRIES)
                         else x.t.retries)
      && (BacksOff(x, step) ==> y.t.state == Disconnected && y.t.nextAction == ClockOf(step) + Timeout(y.t.retries))
      && (TimesOut(x, step) ==> y.t.state == Disconnected && y.t.nextAction == step.now)
  {
    hide PhaseOf, Timeout, SentOk, ReportOk, FlightOk;
    if step.Packet? && x.t.state == Announcing {
      RecvAnnounceCases(x.t, step.inbox, step.failed, step.clock);
    }
  }

  lemma {:induction false} RetriesCount(xs: seq<View>, steps: seq<Step>, k: nat)
    requires IsRun(xs, steps) && k < |xs|
    ensures xs[k].t.retries == Min(Failures(xs, steps, k), MAX_RETRIES)
  {
    if k == 0 {
    } else {
      hide Inv, Next, Succeeds, BacksOff, TimesOut;
      RetriesCount(xs, steps, k - 1);
      RunInv(xs, steps, k - 1);
      StepRetries(xs[k - 1], steps[k - 1]);
      assert xs[k - 1 + 1] == Next(xs[k - 1], steps[k - 1]);
    }
  }

  // In every run: a tracker that backs off after n failures since the last reply
  // waits 15*2^n seconds; one that times out connects again at once, and its next
  // connect waits 15*2^n seconds for the reply; n counts up to 8.
  lemma FailuresDouble(xs: seq<View>, steps: seq<Step>, k: nat)
    requires IsRun(xs, steps) && k < |steps|
    ensures var n, y := Min(Failures(xs, steps, k + 1), MAX_RETRIES), xs[k + 1].t;
      && (BacksOff(xs[k], steps[k]) ==>
          y.state == Disconnected && y.nextAction == ClockOf(steps[k]) + 15 * Pow2(n) * SECOND)
      && (TimesOut(xs[k], steps[k]) ==> y.state == Disconnected && y.nextAction == steps[k].now)
      && (y.state == Connecting ==> y.nextAction == y.connectedAt + 15 * Pow2(n) * SECOND)
  {
    hide Succeeds, BacksOff, TimesOut, PhaseOf;
    RetriesCount(xs, steps, k + 1);
    RunInv(xs, steps, k);
    RunInv(xs, steps, k + 1);
    StepRetries(xs[k], steps[k]);
    assert xs[k + 1] == Next(xs[k], steps[k]);
  }
}
