// The session together with its trackers: noticing completion is what makes
// every tracker take its finish step (src/runtime/session.cpp:99-105).
module Reporting {
  import opened Types
  import opened Torrents
  import opened Engine
  import opened Invariants
  import opened Runs
  import P = Pieces
  import T = Trackers

  datatype Joint = Joint(x: State, trackers: seq<T.View>)

  datatype JointAction =
    | ClientStep(a: Action, now: int)
    | TrackerStep(i: nat, step: T.Step)
    | ShutdownStep(now: int)

  ghost predicate JointInit(t: Torrent, j: Joint)
  {
    Init(t, j.x) && forall i :: 0 <= i < |j.trackers| ==> T.Init(j.trackers[i])
  }

  function All(trackers: seq<T.View>, step: T.Step): (after: seq<T.View>)
    ensures |after| == |trackers|
    ensures forall i :: 0 <= i < |trackers| ==> after[i] == T.Next(trackers[i], step)
  {
    seq(|trackers|, i requires 0 <= i < |trackers| => T.Next(trackers[i], step))
  }

  // what the trackers hear of a step of the session
  function Informed(x: State, trackers: seq<T.View>, y: State, now: int): seq<T.View>
  {
    if !x.s.notified && y.s.notified then All(trackers, T.Finish(now)) else trackers
  }

  ghost predicate JointNext(t: Torrent, j: Joint, act: JointAction, j': Joint)
  {
    match act
    case ClientStep(a, now) => Moves(t, j.x, a, j'.x) && j'.trackers == Informed(j.x, j.trackers, j'.x, now)
    case TrackerStep(i, step) =>
      i < |j.trackers| && (step.Packet? || step.Timer?)
          && j' == j.(trackers := j.trackers[i := T.Next(j.trackers[i], step)])
    case ShutdownStep(now) => j' == j.(trackers := All(j.trackers, T.Shutdown(now)))
  }

  ghost predicate IsJointRun(t: Torrent, js: seq<Joint>, acts: seq<JointAction>)
  {
    && |js| == |acts| + 1
    && JointInit(t, js[0])
    && forall k :: 0 <= k < |acts| ==> JointNext(t, js[k], acts[k], js[k + 1])
  }

  // ----- only the notice of completion changes the flags -----

  lemma {:induction false} BansKeepFlags(s: Session, hosts: seq<Host>, order: Host -> seq<nat>)
    ensures BanHosts(s, hosts, order).notified == s.notified && BanHosts(s, hosts, order).completed == s.completed
    decreases |hosts|
  {
    if hosts == [] {
    } else {
      BansKeepFlags(BanHost(s, hosts[0], order(hosts[0])), hosts[1..], order);
    }
  }

  lemma DispatchKeepsFlags(t: Torrent, s: Session, order: Host -> seq<nat>)
    requires Shaped(t, s) && s.queue != []
    ensures Dispatch(t, s, order).notified == s.notified && Dispatch(t, s, order).completed == s.completed
  {
    hide BanHosts;
    if s.queue[0].PieceArrived? {
      var (s1, hosts) := FilePiece(t, s.(queue := s.queue[1..]), s.queue[0].peer, s.queue[0].block);
      BansKeepFlags(s1, hosts, order);
    }
  }

  lemma OnlyNoticeReports(t: Torrent, x: State, a: Action, y: State)
    requires Shaped(t, x.s) && Next(t, x, a, y)
    ensures y.h.resumed == x.h.resumed
    ensures y.s.notified == x.s.notified || (a.NoticeComplete? && y.s.notified)
    ensures !a.NoticeComplete? ==> y.s.notified == x.s.notified && y.s.completed == x.s.completed
    ensures a.NoticeComplete? ==>
      if x.s.completed || y.s.pieces.haveCount != t.Count() then y.s == x.s else y.s.completed && y.s.notified
  {
    hide Dispatch;
    if a.DispatchNext? { DispatchKeepsFlags(t, x.s, a.order); }
  }

  // ----- what every joint state has -----

  ghost predicate JointInv(t: Torrent, j: Joint, resumed: bool)
  {
    && Inv(t, j.x) && j.x.h.resumed == resumed && (j.x.s.notified <==> j.x.s.completed && !resumed)
    && forall i :: 0 <= i < |j.trackers| ==> T.Inv(j.trackers[i]) && j.trackers[i].complete == j.x.s.notified
  }

  lemma TrackerNext(v: T.View, step: T.Step)
    requires T.Inv(v)
    ensures T.Inv(T.Next(v, step)) && T.Next(v, step).complete == (step.Finish? || v.complete)
  {
    T.NextInv(v, step);
  }

  lemma ResumedIsCompleted(t: Torrent, x: State)
    requires Inv(t, x)
    ensures x.h.resumed ==> x.s.completed
  {
  }

  lemma JointNextInv(t: Torrent, j: Joint, act: JointAction, j': Joint, resumed: bool)
    requires JointInv(t, j, resumed) && JointNext(t, j, act, j')
    ensures JointInv(t, j', resumed)
  {
    hide Inv, T.Inv, T.Next, Next;
    match act
    case ClientStep(a, now) =>
      NextInv(t, j.x, a, j'.x);
      OnlyNoticeReports(t, j.x, a, j'.x);
      ResumedIsCompleted(t, j.x);
      forall i | 0 <= i < |j.trackers| ensures T.Inv(j'.trackers[i]) && j'.trackers[i].complete == j'.x.s.notified {
        TrackerNext(j.trackers[i], T.Finish(now));
      }
    case TrackerStep(i, step) => TrackerNext(j.trackers[i], step);
    case ShutdownStep(now) =>
      forall i | 0 <= i < |j.trackers| ensures T.Inv(j'.trackers[i]) && j'.trackers[i].complete == j'.x.s.notified {
        TrackerNext(j.trackers[i], T.Shutdown(now));
      }
  }

  lemma JointInitInv(t: Torrent, j: Joint)
    requires JointInit(t, j)
    ensures JointInv(t, j, j.x.s.pieces.haveCount == t.Count())
  {
    InitInv(t, j.x);
  }

  lemma {:induction false} JointRunInv(t: Torrent, js: seq<Joint>, acts: seq<JointAction>, k: nat)
    requires IsJointRun(t, js, acts) && k < |js|
    ensures JointInv(t, js[k], js[0].x.s.pieces.haveCount == t.Count())
  {
    hide JointInv, JointNext, JointInit;
    if k == 0 {
      JointInitInv(t, js[0]);
    } else {
      JointRunInv(t, js, acts, k - 1);
      assert JointNext(t, js[k - 1], acts[k - 1], js[k - 1 + 1]);
      JointNextInv(t, js[k - 1], acts[k - 1], js[k], js[0].x.s.pieces.haveCount == t.Count());
    }
  }

  lemma CompletedMeansNotified(t: Torrent, j: Joint, resumed: bool, i: nat, a: T.Announce)
    requires JointInv(t, j, resumed) && i < |j.trackers| && a in j.trackers[i].log.sent && a.event == T.EventCompleted
    ensures !resumed && j.x.s.pieces.haveCount == t.Count()
  {
    assert T.SentOk(a, j.trackers[i]);
  }

  // No tracker is ever sent completed by a session that starts complete; and when
  // one is sent completed, the session started incomplete and is complete.
  lemma CompletedOnlyWhenEarned(t: Torrent, js: seq<Joint>, acts: seq<JointAction>, k: nat, i: nat, a: T.Announce)
    requires IsJointRun(t, js, acts) && k < |js| && i < |js[k].trackers| && a in js[k].trackers[i].log.sent
    ensures a.event == T.EventCompleted ==>
              js[0].x.s.pieces.haveCount != t.Count() && js[k].x.s.pieces.haveCount == t.Count()
  {
    hide JointInv, JointNext, JointInit;
    JointRunInv(t, js, acts, k);
    if a.event == T.EventCompleted {
      CompletedMeansNotified(t, js[k], js[0].x.s.pieces.haveCount == t.Count(), i, a);
    }
  }

  ghost predicate AllOwned(t: Torrent, x: State)
  {
    forall i :: 0 <= i < t.Count() ==> i in x.s.pieces.have
  }

  lemma CountIsAll(t: Torrent, x: State)
    requires Inv(t, x)
    ensures x.s.pieces.haveCount == t.Count() <==> AllOwned(t, x)
    ensures x.s.completed ==> x.s.pieces.haveCount == t.Count()
  {
    P.CountersExact(t, x.s.pieces);
  }

  // When the session looks, it notices completion exactly if every piece is owned,
  // and then the trackers know of it, unless it was complete from the start.
  lemma CompletionIsNoticed(t: Torrent, js: seq<Joint>, acts: seq<JointAction>, k: nat)
    requires IsJointRun(t, js, acts) && k < |acts| && acts[k].ClientStep? && acts[k].a.NoticeComplete?
    ensures js[k + 1].x.s.completed <==> AllOwned(t, js[k + 1].x)
    ensures var views := js[k + 1].trackers;
            forall i :: 0 <= i < |views| ==>
              (views[i].complete <==> AllOwned(t, js[k + 1].x) && !AllOwned(t, js[0].x))
  {
    hide Inv, T.Inv, Next, T.Next, AllOwned, JointInit;
    JointRunInv(t, js, acts, 0);
    JointRunInv(t, js, acts, k);
    JointRunInv(t, js, acts, k + 1);
    assert JointNext(t, js[k], acts[k], js[k + 1]);
    OnlyNoticeReports(t, js[k].x, acts[k].a, js[k + 1].x);
    CountIsAll(t, js[0].x);
    CountIsAll(t, js[k].x);
    CountIsAll(t, js[k + 1].x);
  }

  // ----- steps of the trackers alone -----

  ghost predicate IsTrackerPath(t: Torrent, js: seq<Joint>, acts: seq<JointAction>)
  {
    && |js| == |acts| + 1
    && forall k :: 0 <= k < |acts| ==> acts[k].TrackerStep? && JointNext(t, js[k], acts[k], js[k + 1])
  }

  ghost predicate TrackersLead(t: Torrent, j: Joint, j': Joint)
  {
    exists js, acts :: IsTrackerPath(t, js, acts) && js[0] == j && js[|acts|] == j'
  }

  lemma LeadsHere(t: Torrent, j: Joint)
    ensures TrackersLead(t, j, j)
  {
    assert IsTrackerPath(t, [j], []);
  }

  lemma LeadsFurther(t: Torrent, j: Joint, j': Joint, act: JointAction, j'': Joint)
    requires TrackersLead(t, j, j') && act.TrackerStep? && JointNext(t, j', act, j'')
    ensures TrackersLead(t, j, j'')
  {
    hide JointNext;
    var js, acts :| IsTrackerPath(t, js, acts) && js[0] == j && js[|acts|] == j';
    var js', acts' := js + [j''], acts + [act];
    forall k | 0 <= k < |acts'| ensures acts'[k].TrackerStep? && JointNext(t, js'[k], acts'[k], js'[k + 1]) {
      if k < |acts| { assert JointNext(t, js[k], acts[k], js[k + 1]); }
    }
    assert IsTrackerPath(t, js', acts');
  }

  ghost predicate Own(step: Option<T.Step>)
  {
    step.Some? ==> step.value.Packet? || step.value.Timer?
  }

  function Taking(v: T.View, step: Option<T.Step>): T.View
  {
    match step case None => v case Some(s) => T.Next(v, s)
  }

  // the first n trackers have taken their steps of this pass
  function Passed(j: Joint, steps: seq<Option<T.Step>>, n: nat): Joint
    requires n <= |steps| == |j.trackers|
  {
    j.(trackers := seq(|j.trackers|, i requires 0 <= i < |j.trackers| =>
                         if i < n then Taking(j.trackers[i], steps[i]) else j.trackers[i]))
  }

  lemma {:induction false} PassLeads(t: Torrent, start: Joint, j: Joint, steps: seq<Option<T.Step>>, n: nat)
    requires n <= |steps| == |j.trackers| && TrackersLead(t, start, j)
    requires forall i :: 0 <= i < |steps| ==> Own(steps[i])
    ensures TrackersLead(t, start, Passed(j, steps, n))
  {
    hide TrackersLead, T.Next;
    if n == 0 {
      assert Passed(j, steps, 0).trackers == j.trackers;
    } else {
      PassLeads(t, start, j, steps, n - 1);
      var before, after := Passed(j, steps, n - 1), Passed(j, steps, n);
      match steps[n - 1]
      case None => assert after.trackers == before.trackers;
      case Some(step) =>
        assert Own(steps[n - 1]);
        assert after.trackers == before.trackers[n - 1 := T.Next(before.trackers[n - 1], step)];
        LeadsFurther(t, start, before, TrackerStep(n - 1, step), after);
    }
  }
}
