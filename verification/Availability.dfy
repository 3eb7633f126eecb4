// Rarest-first relies on piece_frequency_: when it is the number of connections
// that announced a piece, and when it is not.
module Availability {
  import opened Types
  import opened Torrents
  import opened Wire
  import opened Bitfields
  import opened Swarms
  import opened Engine
  import opened Invariants
  import opened Dispatching
  import opened Runs
  import opened Metainfo
  import DiskManagers
  import B = Bans
  import P = Pieces

  // this message is a connection's first acceptable bitfield although the
  // connection had already announced piece i ("peer messages" of BEP 3 only
  // allow a bitfield as the first message)
  ghost predicate LateBitfield(x: State, a: Action, i: nat)
  {
    && a.Deliver?
    && a.peer in x.s.swarm.conns
    && a.msg != [] && a.msg[0] == MSG_BITFIELD
    && !x.s.swarm.conns[a.peer].gotBitfield
    && FromBytes(a.msg[1..], |x.s.swarm.frequency|).Some?
    && i in x.s.swarm.conns[a.peer].has
  }

  // how many of the first k steps were such messages
  ghost function LateBitfields(xs: seq<State>, acts: seq<Action>, i: nat, k: nat): nat
    requires k <= |acts| <= |xs|
  {
    if k == 0 then 0 else LateBitfields(xs, acts, i, k - 1) + (if LateBitfield(xs[k - 1], acts[k - 1], i) then 1 else 0)
  }

  lemma NextLeaks(t: Torrent, x: State, a: Action, y: State, i: nat)
    requires Shaped(t, x.s) && |x.h.leaked| == |x.s.swarm.frequency| && Next(t, x, a, y) && i < |x.h.leaked|
    ensures |y.h.leaked| == |x.h.leaked| && y.h.leaked[i] == x.h.leaked[i] + (if LateBitfield(x, a, i) then 1 else 0)
  {
  }

  lemma {:induction false} LeakedIsLate(t: Torrent, xs: seq<State>, acts: seq<Action>, k: nat, i: nat)
    requires IsRun(t, xs, acts) && k < |xs| && i < t.Count()
    ensures |xs[k].h.leaked| == t.Count() && xs[k].h.leaked[i] == LateBitfields(xs, acts, i, k)
  {
    hide Next, LateBitfield;
    if k == 0 {
    } else {
      LeakedIsLate(t, xs, acts, k - 1, i);
      assert Moves(t, xs[k - 1], acts[k - 1], xs[k - 1 + 1]);
      NextLeaks(t, xs[k - 1], acts[k - 1], xs[k], i);
    }
  }

  lemma HoldersBound(conns: map<nat, Conn>, i: nat)
    ensures Holders(conns, i) <= |conns|
  {
    SubsetSize(HolderSet(conns, i), conns.Keys);
  }

  lemma {:induction false} SubsetSize<T>(a: set<T>, b: set<T>)
    requires a <= b
    ensures |a| <= |b|
  {
    if a != {} {
      var x :| x in a;
      SubsetSize(a - {x}, b - {x});
    }
  }

  lemma CountExact(f: nat, holders: nat, leaked: nat)
    requires CountOk(f, holders, leaked) && holders < 0x1_0000
    ensures f == holders <==> leaked % 0x1_0000 == 0
  {
  }

  // The count of a piece is right exactly when the bitfields that came after an
  // announcement of that piece number a multiple of 2^16; in particular it is
  // right, and has not wrapped, on runs where bitfields only ever come first.
  lemma FrequencyExact(t: Torrent, xs: seq<State>, acts: seq<Action>, k: nat, i: nat)
    requires IsRun(t, xs, acts) && k < |xs| && i < t.Count()
    ensures |xs[k].s.swarm.frequency| == t.Count()
    ensures Holders(xs[k].s.swarm.conns, i) <= MAX_PEERS
    ensures xs[k].s.swarm.frequency[i] == Holders(xs[k].s.swarm.conns, i) <==>
            LateBitfields(xs, acts, i, k) % 0x1_0000 == 0
  {
    RunInv(t, xs, acts, k);
    LeakedIsLate(t, xs, acts, k, i);
    HoldersBound(xs[k].s.swarm.conns, i);
    CountExact(xs[k].s.swarm.frequency[i], Holders(xs[k].s.swarm.conns, i), xs[k].h.leaked[i]);
  }

  // ----- a run on which it is wrong -----

  const ZEROS: Bytes := [0, 0, 0, 0, 0, 0, 0, 0, 0, 0, 0, 0, 0, 0, 0, 0, 0, 0, 0, 0]
  const ONES: Bytes := [1, 1, 1, 1, 1, 1, 1, 1, 1, 1, 1, 1, 1, 1, 1, 1, 1, 1, 1, 1]

  // one file of one byte; its hash is not that of the zero byte now on disk
  function TinyInfo(sha1: Bytes -> Bytes): Info
  {
    Info([97], 1, if sha1([0]) == ZEROS then ONES else ZEROS, Some(1), None)
  }

  function Tiny(sha1: Bytes -> Bytes): Torrent
  {
    Torrent(1, 1, [TinyInfo(sha1).pieces], sha1)
  }

  lemma TinyIsAccepted(sha1: Bytes -> Bytes)
    ensures Acceptable(TinyInfo(sha1)) && Describes(TinyInfo(sha1), Tiny(sha1))
  {
    var lengths := Lengths(TinyInfo(sha1));
    assert lengths == [1] && lengths[..0] == [];
    assert DiskManagers.Sum(lengths) == DiskManagers.Sum(lengths[..0]) + 1 == 1;
  }

  function TinyState(conns: map<nat, Conn>, hosts: map<nat, Host>, handshaking: seq<Host>, queue: seq<Event>,
                     frequency: nat, leaked: nat): State
  {
    State(Session(P.Pieces({}, 0, 0, map[]), B.Bans(hosts, map[], map[]),
                  Swarm(conns, handshaking, {}, |conns|, [frequency]),
                  [0], queue, 0, false, false),
          History(map[], map[], [leaked], false))
  }

  const PEER := NewConn("h")

  // the peer once it has been greeted
  function GreetedPeer(sha1: Bytes -> Bytes): Conn
  {
    Greeted(Tiny(sha1), PEER, {}, 0)
  }

  lemma TinyInit(sha1: Bytes -> Bytes)
    ensures Init(Tiny(sha1), TinyState(map[], map[], [], [], 0, 0))
  {
    var t := Tiny(sha1);
    assert t.PieceOf([0], 0) == [0];
    assert Verified(t, [0]) == {};
    assert P.BytesBelow(t, {}, 1) == 0;
  }

  lemma TinyShaped(sha1: Bytes -> Bytes, conns: map<nat, Conn>, hosts: map<nat, Host>, handshaking: seq<Host>,
                   queue: seq<Event>,
                   frequency: nat, leaked: nat)
    ensures Shaped(Tiny(sha1), TinyState(conns, hosts, handshaking, queue, frequency, leaked).s)
  {
    assert P.BytesBelow(Tiny(sha1), {}, 1) == 0;
  }

  lemma HandshakeMoves(sha1: Bytes -> Bytes)
    ensures Moves(Tiny(sha1), TinyState(map[], map[], [], [], 0, 0), BeginHandshake("h"),
                  TinyState(map[], map[], ["h"], [], 0, 0))
    ensures Moves(Tiny(sha1), TinyState(map[], map[], ["h"], [], 0, 0), FinishHandshake(0, None),
                  TinyState(map[0 := PEER], map[], [], [Joined(0)], 0, 0))
  {
    TinyShaped(sha1, map[], map[], [], [], 0, 0);
    TinyShaped(sha1, map[], map[], ["h"], [], 0, 0);
  }

  lemma GreetMoves(sha1: Bytes -> Bytes)
    ensures Moves(Tiny(sha1), TinyState(map[0 := PEER], map[], [], [Joined(0)], 0, 0), DispatchNext(_ => [0]),
                  TinyState(map[0 := GreetedPeer(sha1)], map[0 := "h"], [], [], 0, 0))
  {
    hide Greet, Greeted;
    var t, x := Tiny(sha1), TinyState(map[0 := PEER], map[], [], [Joined(0)], 0, 0);
    var y := TinyState(map[0 := GreetedPeer(sha1)], map[0 := "h"], [], [], 0, 0);
    TinyShaped(sha1, map[0 := PEER], map[], [], [Joined(0)], 0, 0);
    GreetIs(t, x.s.(queue := [], bans := B.OnJoin(x.s.bans, 0, "h")), 0);
    assert x.s.queue[1..] == [];
    assert map[0 := PEER][0 := GreetedPeer(sha1)] == map[0 := GreetedPeer(sha1)];
    assert Dispatch(t, x.s, _ => [0]) == y.s;
  }

  lemma HaveMoves(sha1: Bytes -> Bytes)
    ensures Moves(Tiny(sha1), TinyState(map[0 := GreetedPeer(sha1)], map[0 := "h"], [], [], 0, 0),
                  Deliver(0, [MSG_HAVE, 0, 0, 0, 0]),
                  TinyState(map[0 := GreetedPeer(sha1).(has := {0})], map[0 := "h"], [], [], 1, 0))
  {
    TinyShaped(sha1, map[0 := GreetedPeer(sha1)], map[0 := "h"], [], [], 0, 0);
    assert [MSG_HAVE, 0, 0, 0, 0][1..] == [0, 0, 0, 0];
    assert Bumped([0], {0}, 1) == [1];
  }

  lemma BitfieldMessage(c: Conn, sw: Swarm, q: seq<Event>, msg: Bytes)
    requires c.has == {0} && !c.gotBitfield
    requires sw.conns == map[0 := c] && sw.frequency == [1] && msg == [MSG_BITFIELD] + Pack({0}, 1)
    ensures FromBytes(msg[1..], 1) == Some({0})
    ensures var r := HandleMessage(sw, q, 0, msg);
            r.queue == q && r.swarm == sw.(conns := map[0 := c.(gotBitfield := true)], frequency := [2])
  {
    hide Pack, FromBytes;
    assert msg[1..] == Pack({0}, 1);
    PackRoundTrip({0}, 1);
    assert Bumped([1], {0}, 1) == [2];
    assert c.(has := {0}) == c;
  }

  lemma BitfieldMoves(sha1: Bytes -> Bytes)
    ensures Moves(Tiny(sha1), TinyState(map[0 := GreetedPeer(sha1).(has := {0})], map[0 := "h"], [], [], 1, 0),
                  Deliver(0, [MSG_BITFIELD] + Pack({0}, 1)),
                  TinyState(map[0 := GreetedPeer(sha1).(has := {0}, gotBitfield := true)], map[0 := "h"], [], [], 2, 1))
  {
    hide Shaped, Pack, HandleMessage;
    var c := GreetedPeer(sha1).(has := {0});
    var x, msg := TinyState(map[0 := c], map[0 := "h"], [], [], 1, 0), [MSG_BITFIELD] + Pack({0}, 1);
    TinyShaped(sha1, map[0 := c], map[0 := "h"], [], [], 1, 0);
    BitfieldMessage(c, x.s.swarm, x.s.queue, msg);
    assert LeakedBy(x, 0, msg) == [1];
  }

  // A peer connects, is greeted, announces piece 0 with a have message, then
  // sends a bitfield that contains it: one holder, counted twice.
  lemma CountedTwice(sha1: Bytes -> Bytes) returns (xs: seq<State>, acts: seq<Action>)
    ensures Acceptable(TinyInfo(sha1)) && Describes(TinyInfo(sha1), Tiny(sha1))
    ensures IsRun(Tiny(sha1), xs, acts) && |xs| == 6
    ensures Holders(xs[5].s.swarm.conns, 0) == 1 && xs[5].s.swarm.frequency == [2]
  {
    hide Greeted, Moves, Init, Acceptable, Describes, TinyInfo;
    var x2 := TinyState(map[0 := PEER], map[], [], [Joined(0)], 0, 0);
    var x3 := TinyState(map[0 := GreetedPeer(sha1)], map[0 := "h"], [], [], 0, 0);
    var x4 := TinyState(map[0 := GreetedPeer(sha1).(has := {0})], map[0 := "h"], [], [], 1, 0);
    var x5 := TinyState(map[0 := GreetedPeer(sha1).(has := {0}, gotBitfield := true)], map[0 := "h"], [], [], 2, 1);
    xs := [TinyState(map[], map[], [], [], 0, 0), TinyState(map[], map[], ["h"], [], 0, 0), x2, x3, x4, x5];
    acts := [BeginHandshake("h"), FinishHandshake(0, None), DispatchNext(_ => [0]),
             Deliver(0, [MSG_HAVE, 0, 0, 0, 0]), Deliver(0, [MSG_BITFIELD] + Pack({0}, 1))];
    TinyIsAccepted(sha1);
    TinyInit(sha1);
    HandshakeMoves(sha1);
    GreetMoves(sha1);
    HaveMoves(sha1);
    BitfieldMoves(sha1);
    assert HolderSet(x5.s.swarm.conns, 0) == {0};
  }
}
