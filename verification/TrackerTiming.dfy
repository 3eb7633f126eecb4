// When trackers hear from us, over whole runs: the interval a reply asks for is
// kept, and nothing but the end of the download or of the session cuts it short.
module TrackerTiming {
  import opened Types
  import opened Wire
  import opened TrackerReplies
  import opened Trackers
  import opened TrackerProgress

  // ----- which reply counts -----

  // datagram m is the first that is not ignored, and grants this interval
  ghost predicate GrantsAt(inbox: seq<Bytes>, txn: nat, m: nat, interval: nat)
  {
    && m < |inbox| && ReplyOf(inbox[m], txn).Granted? && ReplyOf(inbox[m], txn).interval == interval
    && forall n :: 0 <= n < m ==> ReplyOf(inbox[n], txn).Ignored?
  }

  // the step brings the reply to the announce in flight, with this interval
  ghost predicate Grants(x: View, step: Step, interval: nat)
  {
    && step.Packet? && x.t.state == Announcing
    && exists m: nat :: GrantsAt(step.inbox, x.t.transactionId, m, interval)
  }

  // An announce is acknowledged exactly by such a datagram, which also brings the
  // interval and the peers.
  lemma {:induction false} GrantDecides(t: Tracker, inbox: seq<Bytes>, failed: bool, clock: int)
    ensures var r := RecvAnnounce(t, inbox, failed, clock);
            if r.acked.Some? then
              exists m: nat, interval :: GrantsAt(inbox, t.transactionId, m, interval)
                && r.t == Acknowledged(t, interval, clock)
                && r.peers == (if t.inFlight == EventStopped then [] else ReplyOf(inbox[m], t.transactionId).peers)
            else forall m: nat, interval :: !GrantsAt(inbox, t.transactionId, m, interval)
    decreases |inbox|
  {
    hide ReplyOf, Acknowledged;
    var txn := t.transactionId;
    if inbox != [] {
      var reply := ReplyOf(inbox[0], txn);
      if reply.Ignored? {
        var rest, r := inbox[1..], RecvAnnounce(t, inbox[1..], failed, clock);
        GrantDecides(t, rest, failed, clock);
        if r.acked.Some? {
          var m: nat, interval :| GrantsAt(rest, txn, m, interval) && r.t == Acknowledged(t, interval, clock)
              && r.peers == (if t.inFlight == EventStopped then [] else ReplyOf(rest[m], txn).peers);
          LaterGrant(inbox, txn, m, interval);
        } else {
          forall m: nat, interval ensures !GrantsAt(inbox, txn, m, interval) {
            if GrantsAt(inbox, txn, m, interval) { EarlierGrant(inbox, txn, m, interval); }
          }
        }
      } else if reply.Granted? {
        assert GrantsAt(inbox, txn, 0, reply.interval);
      } else {
        forall m: nat, interval ensures !GrantsAt(inbox, txn, m, interval) {
        }
      }
    }
  }

  lemma LaterGrant(inbox: seq<Bytes>, txn: nat, m: nat, interval: nat)
    requires inbox != [] && ReplyOf(inbox[0], txn).Ignored? && GrantsAt(inbox[1..], txn, m, interval)
    ensures GrantsAt(inbox, txn, m + 1, interval)
  {
    hide ReplyOf;
    forall n | 0 <= n < m + 1 ensures ReplyOf(inbox[n], txn).Ignored? {
      if n > 0 { assert ReplyOf(inbox[1..][n - 1], txn).Ignored?; }
    }
  }

  lemma EarlierGrant(inbox: seq<Bytes>, txn: nat, m: nat, interval: nat)
    requires inbox != [] && ReplyOf(inbox[0], txn).Ignored? && GrantsAt(inbox, txn, m, interval)
    ensures m > 0 && GrantsAt(inbox[1..], txn, m - 1, interval)
  {
    hide ReplyOf;
    forall n | 0 <= n < m - 1 ensures ReplyOf(inbox[1..][n], txn).Ignored? {
      assert ReplyOf(inbox[n + 1], txn).Ignored?;
    }
  }

  // ----- how long an idle tracker waits -----

  // in seconds: half an hour if the tracker has no wish, else at least five
  // minutes and at most a day
  function Held(interval: nat): nat
  {
    if interval == 0 then 1800 else if interval < 300 then 300 else Min(interval, 86400)
  }

  // idle since the reply of step j
  ghost predicate IdleSince(xs: seq<View>, steps: seq<Step>, j: nat, k: nat, interval: nat)
    requires IsRun(xs, steps)
  {
    && j < k < |xs| && Grants(xs[j], steps[j], interval)
    && (forall m :: j < m <= k ==> xs[m].t.state == Idle && xs[m].t.reported == xs[k].t.reported)
  }

  // the time of the last finish step between j and k, if it hurries this tracker,
  // or else the end of the interval
  ghost function DueTime(xs: seq<View>, steps: seq<Step>, j: nat, k: nat, interval: nat): int
    requires j < k <= |steps| < |xs| && steps[j].Packet?
  {
    if k == j + 1 then steps[j].clock + 1000 * Held(interval)
    else if steps[k - 1].Finish? && xs[k].t.reported == ReportedStarted then steps[k - 1].now
    else DueTime(xs, steps, j, k - 1, interval)
  }

  lemma AckStep(x: View, step: Step, y: View) returns (interval: nat)
    requires y == Next(x, step) && x.t.state == Announcing && y.t.state == Idle
    ensures Grants(x, step, interval) && y.t.nextAction == step.clock + 1000 * Held(interval)
  {
    hide RecvAnnounce;
    GrantDecides(x.t, step.inbox, step.failed, step.clock);
    RecvAnnounceCases(x.t, step.inbox, step.failed, step.clock);
    var m: nat, i :| GrantsAt(step.inbox, x.t.transactionId, m, i)
        && RecvAnnounce(x.t, step.inbox, step.failed, step.clock).t == Acknowledged(x.t, i, step.clock);
    interval := i;
  }

  // only an announce in flight or an idle tracker leads to an idle one
  lemma IdleFrom(x: View, step: Step, y: View)
    requires Inv(x) && y == Next(x, step) && y.t.state == Idle
    ensures x.t.state == Announcing || x.t.state == Idle
    ensures x.t.state == Announcing ==> step.Packet?
    ensures x.t.state == Idle ==>
              && y.t.reported == x.t.reported
              && y.t.nextAction == if step.Finish? && x.t.reported == ReportedStarted then step.now else x.t.nextAction
  {
    hide PhaseOf, Timeout, SentOk, RecvAnnounce, IsConnectReply, ReadBe64;
    if step.Packet? && x.t.state == Announcing {
      RecvAnnounceCases(x.t, step.inbox, step.failed, step.clock);
    }
  }

  lemma {:induction false} IdleFor(xs: seq<View>, steps: seq<Step>, k: nat) returns (j: nat, interval: nat)
    requires IsRun(xs, steps) && k < |xs| && xs[k].t.state == Idle
    ensures IdleSince(xs, steps, j, k, interval) && xs[k].t.nextAction == DueTime(xs, steps, j, k, interval)
  {
    hide Inv, Next, Grants, Init;
    if k == 0 {
      NotIdleAtFirst(xs[0]);
    } else {
      RunInv(xs, steps, k - 1);
      assert xs[k - 1 + 1] == Next(xs[k - 1], steps[k - 1]);
      IdleFrom(xs[k - 1], steps[k - 1], xs[k]);
      if xs[k - 1].t.state == Announcing {
        j := k - 1;
        interval := AckStep(xs[k - 1], steps[k - 1], xs[k]);
      } else {
        j, interval := IdleFor(xs, steps, k - 1);
      }
    }
  }

  lemma NotIdleAtFirst(x: View)
    requires Init(x)
    ensures x.t.state == Disconnected
  {
  }

  // without a finish step in between it is the interval that counts
  lemma {:induction false} DueUndisturbed(xs: seq<View>, steps: seq<Step>, j: nat, k: nat, interval: nat)
    requires j < k <= |steps| < |xs| && steps[j].Packet? && forall m :: j < m < k ==> !steps[m].Finish?
    ensures DueTime(xs, steps, j, k, interval) == steps[j].clock + 1000 * Held(interval)
  {
    if k > j + 1 {
      DueUndisturbed(xs, steps, j, k - 1, interval);
    }
  }

  // In every run an idle tracker has been so since a reply, and its next action is
  // due when the interval of that reply is over, counted from the reply; only the
  // end of the download, while it has not been reported, makes it due at once.
  lemma IdleWaits(xs: seq<View>, steps: seq<Step>, k: nat) returns (j: nat, interval: nat)
    requires IsRun(xs, steps) && k < |xs| && xs[k].t.state == Idle
    ensures IdleSince(xs, steps, j, k, interval) && xs[k].t.nextAction == DueTime(xs, steps, j, k, interval)
    ensures (forall m :: j < m < k ==> !steps[m].Finish?) ==>
              xs[k].t.nextAction == steps[j].clock + 1000 * Held(interval)
  {
    hide Next, Init, GrantsAt;
    j, interval := IdleFor(xs, steps, k);
    if forall m :: j < m < k ==> !steps[m].Finish? { DueUndisturbed(xs, steps, j, k, interval); }
  }

  // ----- announces are spaced -----

  // clocks do not run backwards, and a timer's deadline check comes before what it does
  ghost predicate Steady(steps: seq<Step>)
  {
    && (forall m, n :: 0 <= m < n < |steps| ==> ClockOf(steps[m]) <= ClockOf(steps[n]))
    && (forall m :: 0 <= m < |steps| && steps[m].Timer? ==> steps[m].now <= steps[m].env.clock)
  }

  ghost predicate SendsAnnounce(x: View, y: View)
  {
    |y.log.sent| > |x.log.sent|
  }

  // the tracker still waits, or the time has come
  ghost predicate WaitsFor(xs: seq<View>, steps: seq<Step>, m: nat, due: int)
    requires m <= |steps| < |xs|
  {
    || (xs[m].t.state == Idle && xs[m].t.nextAction == due)
    || (exists i :: 0 <= i < m && ClockOf(steps[i]) >= due)
  }

  lemma WaitStep(x: View, step: Step, y: View, due: int)
    requires y == Next(x, step) && x.t.state == Idle && x.t.nextAction == due && !step.Finish? && !step.Shutdown?
    requires step.Timer? ==> step.now <= step.env.clock
    ensures (y.t.state == Idle && y.t.nextAction == due) || ClockOf(step) >= due
  {
  }

  lemma {:induction false} WaitsOn(xs: seq<View>, steps: seq<Step>, j: nat, n: nat, due: int)
    requires IsRun(xs, steps) && Steady(steps) && j <= n < |xs| && WaitsFor(xs, steps, j, due)
    requires forall m :: j <= m < n ==> !steps[m].Finish? && !steps[m].Shutdown?
    ensures WaitsFor(xs, steps, n, due)
    decreases n
  {
    hide Next, Init;
    if j < n {
      WaitsOn(xs, steps, j, n - 1, due);
      if xs[n - 1].t.state == Idle && xs[n - 1].t.nextAction == due {
        assert xs[n - 1 + 1] == Next(xs[n - 1], steps[n - 1]);
        WaitStep(xs[n - 1], steps[n - 1], xs[n], due);
      } else {
        var i :| 0 <= i < n - 1 && ClockOf(steps[i]) >= due;
        assert 0 <= i < n;
      }
    }
  }

  lemma IdleIsSilent(x: View, step: Step, y: View)
    requires y == Next(x, step) && SendsAnnounce(x, y)
    ensures step.Timer? && x.t.state == Connected
  {
    hide RecvAnnounce, RecvConnect;
  }

  lemma GrantedIdles(x: View, step: Step, y: View, interval: nat)
    requires y == Next(x, step) && Grants(x, step, interval) && x.t.inFlight != EventStopped
    ensures y.t.state == Idle && y.t.nextAction == step.clock + 1000 * Held(interval)
  {
    hide RecvAnnounce;
    var txn := x.t.transactionId;
    GrantDecides(x.t, step.inbox, step.failed, step.clock);
    RecvAnnounceCases(x.t, step.inbox, step.failed, step.clock);
    var r := RecvAnnounce(x.t, step.inbox, step.failed, step.clock);
    var n: nat :| GrantsAt(step.inbox, txn, n, interval);
    var m: nat, i :| GrantsAt(step.inbox, txn, m, i) && r.t == Acknowledged(x.t, i, step.clock);
    OneGrant(step.inbox, txn, m, i, n, interval);
  }

  lemma OneGrant(inbox: seq<Bytes>, txn: nat, m: nat, i: nat, n: nat, interval: nat)
    requires GrantsAt(inbox, txn, m, i) && GrantsAt(inbox, txn, n, interval)
    ensures i == interval
  {
    hide ReplyOf;
    assert !(m < n) && !(n < m);
  }

  // In every run with steady clocks: after a reply, the next announce goes out no
  // sooner than the interval of that reply is over, so at least five minutes later,
  // unless the download or the session ends in between.
  lemma AnnouncesAreSpaced(xs: seq<View>, steps: seq<Step>, j: nat, n: nat, interval: nat)
    requires IsRun(xs, steps) && Steady(steps) && j < n < |steps|
    requires Grants(xs[j], steps[j], interval) && xs[j].t.inFlight != EventStopped && SendsAnnounce(xs[n], xs[n + 1])
    requires forall m :: j < m < n ==> !steps[m].Finish? && !steps[m].Shutdown?
    ensures ClockOf(steps[n]) >= steps[j].clock + 1000 * Held(interval) >= steps[j].clock + 300 * 1000
  {
    hide Next, Init, GrantsAt;
    var due := steps[j].clock + 1000 * Held(interval);
    assert xs[j + 1] == Next(xs[j], steps[j]) && xs[n + 1] == Next(xs[n], steps[n]);
    GrantedIdles(xs[j], steps[j], xs[j + 1], interval);
    WaitsOn(xs, steps, j + 1, n, due);
    IdleIsSilent(xs[n], steps[n], xs[n + 1]);
    var i :| 0 <= i < n && ClockOf(steps[i]) >= due;
    assert ClockOf(steps[i]) <= ClockOf(steps[n]);
  }

  // ----- what cuts the wait short -----

  // When the download ends, an idle tracker that only knows of the start can be told
  // of the completion at that very time.
  lemma CompletionIsPrompt(x: View, now: int) returns (steps: seq<Step>)
    requires Inv(x) && x.t.state == Idle && x.t.reported == ReportedStarted && !x.stopping
    ensures |steps| <= 6 && AllAt(steps, now)
    ensures RunFrom(Next(x, Finish(now)), steps).log.acked == x.log.acked + [EventCompleted]
  {
    var y := Next(x, Finish(now));
    NextInv(x, Finish(now));
    steps := EveryTrackerCanBeServed(y, now);
  }

  // When the session ends, a tracker that knows of us can be told at that very time,
  // and one that does not is left alone; while its connection id is fresh, an idle or
  // announcing tracker needs no more than the announce and its answer.
  lemma ShutdownIsPrompt(x: View, now: int) returns (steps: seq<Step>)
    requires Inv(x) && x.t.state != Stopped
    ensures var y := Next(x, Shutdown(now));
            if x.t.reported == ReportedNothing then y.t.state == Stopped && y.log == x.log
            else
              && |steps| <= 6 && AllAt(steps, now)
              && RunFrom(y, steps).t.state == Stopped
              && RunFrom(y, steps).log.acked == x.log.acked + [EventStopped]
              && ((x.t.state == Idle || x.t.state == Announcing) && now - x.t.connectedAt < 60 * 1000 ==> |steps| == 2)
  {
    var y := Next(x, Shutdown(now));
    steps := [];
    if x.t.reported != ReportedNothing {
      NextInv(x, Shutdown(now));
      match y.t.state
      case Connecting => steps := FromConnecting(y, now);
      case Resolving => steps := FromResolving(y, now);
      case Disconnected => steps := FromDisconnected(y, now);
      case Connected =>
        if now - y.t.connectedAt < ID_LIFETIME {
          steps := FromConnected(y, now);
        } else {
          steps := StartingOver(y, now);
        }
    }
  }

  // ----- connection ids and transactions -----

  // the first datagram of the step answers the connect request with this id
  ghost predicate GivesId(x: View, step: Step, id: ConnectionId)
  {
    && step.Packet? && x.t.state == Connecting && step.inbox != []
    && var b := step.inbox[0];
    && |b| >= 16 && b[..4] == [0, 0, 0, 0] && ReadBe32(b[4..]) == x.t.transactionId
    && id == ConnectionId(ReadBe32(b[8..]) * 0x1_0000_0000 + ReadBe32(b[12..]), step.clock)
  }

  lemma NewId(x: View, step: Step, y: View)
    requires y == Next(x, step)
    ensures y.log.ids == x.log.ids || (|y.log.ids| == |x.log.ids| + 1 && y.log.ids[..|x.log.ids|] == x.log.ids
                                       && GivesId(x, step, y.log.ids[|x.log.ids|]))
  {
    hide RecvAnnounce;
    if step.Packet? && x.t.state == Connecting && step.inbox != [] && |step.inbox[0]| >= 16 {
      var b := step.inbox[0];
      assert b[8..][4..] == b[12..];
      if ReadBe32(b) == 0 {
        var b0: int, b1: int, b2: int, b3: int := b[0], b[1], b[2], b[3];
        assert b0 == 0 && b1 == 0 && b2 == 0 && b3 == 0;
        assert b[..4] == [0, 0, 0, 0];
      }
    }
  }

  // In every run each connection id, and so the id of each announce, was given in
  // a reply to the connect request then in flight.
  lemma {:induction false} IdsWereGiven(xs: seq<View>, steps: seq<Step>, k: nat, id: ConnectionId)
    requires IsRun(xs, steps) && k < |xs| && id in xs[k].log.ids
    ensures exists j :: 0 <= j < k && GivesId(xs[j], steps[j], id)
    decreases k
  {
    hide Next, GivesId;
    if k > 0 {
      assert xs[k - 1 + 1] == Next(xs[k - 1], steps[k - 1]);
      NewId(xs[k - 1], steps[k - 1], xs[k]);
      if id in xs[k - 1].log.ids {
        IdsWereGiven(xs, steps, k - 1, id);
      } else {
        assert GivesId(xs[k - 1], steps[k - 1], id);
      }
    }
  }

  // step j sent what the tracker has been waiting to hear about ever since
  ghost predicate AwaitsSince(xs: seq<View>, steps: seq<Step>, j: nat, k: nat)
    requires IsRun(xs, steps)
  {
    && j < k < |xs| && steps[j].Timer? && steps[j].env.sent && xs[j].t.state != xs[k].t.state
    && (forall m :: j < m <= k ==> xs[m].t.state == xs[k].t.state)
    && xs[k].t.transactionId == steps[j].env.txn
    && xs[k].t.nextAction == steps[j].env.clock + 15 * Pow2(xs[k].t.retries) * 1000
  }

  lemma AwaitStep(x: View, step: Step, y: View)
    requires Inv(x) && y == Next(x, step) && (y.t.state == Connecting || y.t.state == Announcing)
    ensures || (y.t == x.t)
            || (&& step.Timer? && step.env.sent && x.t.state != y.t.state && y.t.transactionId == step.env.txn
                && y.t.nextAction == step.env.clock + 15 * Pow2(y.t.retries) * 1000)
  {
    hide Inv, RecvAnnounce, IsConnectReply, ReadBe64, Pow2;
    if step.Packet? && x.t.state == Announcing {
      RecvAnnounceCases(x.t, step.inbox, step.failed, step.clock);
    }
  }

  // In every run a tracker that waits for a reply has done so since a send, to which
  // its transaction number belongs and from which its deadline counts.
  lemma {:induction false} RepliesAreAwaited(xs: seq<View>, steps: seq<Step>, k: nat)
    requires IsRun(xs, steps) && k < |xs| && (xs[k].t.state == Connecting || xs[k].t.state == Announcing)
    ensures exists j: nat :: AwaitsSince(xs, steps, j, k)
    decreases k
  {
    hide Next, Inv, Init, Pow2;
    if k == 0 {
      NotIdleAtFirst(xs[0]);
    } else {
      RunInv(xs, steps, k - 1);
      assert xs[k - 1 + 1] == Next(xs[k - 1], steps[k - 1]);
      AwaitStep(xs[k - 1], steps[k - 1], xs[k]);
      if xs[k].t == xs[k - 1].t {
        RepliesAreAwaited(xs, steps, k - 1);
        var j: nat :| AwaitsSince(xs, steps, j, k - 1);
        assert AwaitsSince(xs, steps, j, k);
      } else {
        assert AwaitsSince(xs, steps, k - 1, k);
      }
    }
  }

  // ----- retries are spaced -----

  // nothing happens to a tracker that backs off
  lemma BackoffStep(x: View, step: Step, y: View)
    requires Inv(x) && y == Next(x, step) && x.t.state == Disconnected && !step.Shutdown?
    ensures y.t.state == Disconnected && !BacksOff(x, step) ==> y.t.nextAction == x.t.nextAction
    ensures y.t.state != Disconnected || BacksOff(x, step) ==> step.Timer? && step.now >= x.t.nextAction
  {
    hide Inv, RecvAnnounce, RecvConnect, Timeout;
  }

  ghost predicate BacksOffStill(xs: seq<View>, steps: seq<Step>, j: nat, m: nat)
    requires IsRun(xs, steps)
  {
    && j < m < |xs|
    && (forall i :: j < i < m ==> !steps[i].Shutdown? && !BacksOff(xs[i], steps[i]))
    && (forall i :: j < i <= m ==> xs[i].t.state == Disconnected)
  }

  lemma {:induction false} BackoffIsKept(xs: seq<View>, steps: seq<Step>, j: nat, m: nat)
    requires IsRun(xs, steps) && BacksOffStill(xs, steps, j, m) && BacksOff(xs[j], steps[j])
    ensures xs[m].t.state == Disconnected
    ensures xs[m].t.nextAction == ClockOf(steps[j]) + 15 * Pow2(Min(Failures(xs, steps, j + 1), 8)) * 1000
    decreases m
  {
    hide Inv, Next, BacksOff, TimesOut, Failures, Pow2, Init;
    if m == j + 1 {
      FailuresDouble(xs, steps, j);
    } else {
      assert !BacksOff(xs[m - 1], steps[m - 1]);
      BackoffIsKept(xs, steps, j, m - 1);
      RunInv(xs, steps, m - 1);
      assert xs[m - 1 + 1] == Next(xs[m - 1], steps[m - 1]);
      BackoffStep(xs[m - 1], steps[m - 1], xs[m]);
    }
  }

  // In every run, after a back-off with n failures since the last reply nothing is
  // tried again until 15*2^n seconds later, n at most 8, unless the session ends.
  lemma RetriesAreSpaced(xs: seq<View>, steps: seq<Step>, j: nat, m: nat)
    requires IsRun(xs, steps) && m < |steps| && BacksOffStill(xs, steps, j, m) && BacksOff(xs[j], steps[j])
    requires !steps[m].Shutdown? && (xs[m + 1].t.state != Disconnected || BacksOff(xs[m], steps[m]))
    ensures steps[m].Timer?
    ensures steps[m].now >= ClockOf(steps[j]) + 15 * Pow2(Min(Failures(xs, steps, j + 1), 8)) * 1000
  {
    hide Inv, Next, BacksOff, TimesOut, Failures, Pow2, Init;
    BackoffIsKept(xs, steps, j, m);
    RunInv(xs, steps, m);
    assert xs[m + 1] == Next(xs[m], steps[m]);
    BackoffStep(xs[m], steps[m], xs[m + 1]);
  }
}
