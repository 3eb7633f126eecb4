// The bytes of a connection's outgoing stream (src/runtime/managers/peer_manager.cpp:
// enqueue, the send part of handle_events, remove_queued_piece).
module WriteQueues {
  import opened Types
  import opened Wire
  import Outboxes

  // write_buffer, cursor and queued_bytes of a PeerConnection
  datatype Queue = Queue(buffer: seq<Bytes>, cursor: nat, queued: int)

  function Total(msgs: seq<Bytes>): nat
  {
    if msgs == [] then 0 else |msgs[0]| + Total(msgs[1..])
  }

  // only the front message can be partly sent
  ghost predicate Wf(q: Queue)
  {
    && q.queued == Total(q.buffer)
    && (if q.buffer == [] then q.cursor == 0 else q.cursor < |q.buffer[0]|)
    && (forall k :: 0 <= k < |q.buffer| ==> q.buffer[k] != [])
  }

  function Enqueue(q: Queue, m: Bytes): Queue
  {
    q.(buffer := q.buffer + [m], queued := q.queued + |m|)
  }

  predicate CanSend(q: Queue, w: nat)
  {
    q.buffer != [] && q.cursor + w <= |q.buffer[0]|
  }

  // the kernel took w more bytes of the front message
  function Send(q: Queue, w: nat): Queue
    requires CanSend(q, w)
  {
    if q.cursor + w < |q.buffer[0]| then q.(cursor := q.cursor + w)
    else Queue(q.buffer[1..], 0, q.queued - |q.buffer[0]|)
  }

  // messages the peer has not seen any byte of start here
  function Reachable(q: Queue): nat
  {
    if q.cursor > 0 && q.buffer != [] then 1 else 0
  }

  // k is the first reachable message that is the named block
  ghost predicate CancelsAt(q: Queue, piece: nat, begin: nat, length: nat, k: nat)
  {
    && Reachable(q) <= k < |q.buffer|
    && BytesNamePiece(q.buffer[k], piece, begin, length)
    && forall j :: Reachable(q) <= j < k ==> !BytesNamePiece(q.buffer[j], piece, begin, length)
  }

  function RemoveAt(q: Queue, k: nat): Queue
    requires k < |q.buffer|
  {
    Queue(Without(q.buffer, k), q.cursor, q.queued - |q.buffer[k]|)
  }

  lemma {:induction false} TotalAppend(a: seq<Bytes>, b: seq<Bytes>)
    ensures Total(a + b) == Total(a) + Total(b)
  {
    if a == [] {
      assert a + b == b;
    } else {
      TotalAppend(a[1..], b);
      assert (a + b)[1..] == a[1..] + b;
    }
  }

  lemma {:induction false} JoinAppend(a: seq<Bytes>, b: seq<Bytes>)
    ensures Join(a + b) == Join(a) + Join(b)
  {
    if a == [] {
      assert a + b == b;
    } else {
      JoinAppend(a[1..], b);
      assert (a + b)[1..] == a[1..] + b;
      assert a[0] + (Join(a[1..]) + Join(b)) == a[0] + Join(a[1..]) + Join(b);
    }
  }

  lemma {:induction false} TotalWithout(msgs: seq<Bytes>, k: nat)
    requires k < |msgs|
    ensures Total(msgs) == Total(Without(msgs, k)) + |msgs[k]|
  {
    var less := Without(msgs, k);
    if k == 0 {
      assert less == msgs[1..];
    } else {
      TotalWithout(msgs[1..], k - 1);
      assert less[0] == msgs[0] && less[1..] == Without(msgs[1..], k - 1);
    }
  }

  lemma RemoveWf(q: Queue, k: nat)
    requires Wf(q) && Reachable(q) <= k < |q.buffer|
    ensures Wf(RemoveAt(q, k))
    ensures q.cursor > 0 ==> RemoveAt(q, k).buffer != [] && RemoveAt(q, k).buffer[0] == q.buffer[0]
  {
    TotalWithout(q.buffer, k);
    if k > 0 { assert Without(q.buffer, k)[0] == q.buffer[0]; }
  }

  // ----- whole runs -----

  // the bytes still to be sent
  function Remainder(q: Queue): Bytes
    requires Wf(q)
  {
    if q.buffer == [] then [] else q.buffer[0][q.cursor..] + Join(q.buffer[1..])
  }

  datatype Op = EnqueueOp(m: Bytes) | SendOp(w: nat) | CancelOp(piece: nat, begin: nat, length: nat)

  // the queue, every byte the kernel has taken, every message handed to enqueue,
  // the messages that are completely sent, which of the enqueued ones were not
  // taken back (by position), and which one each operation took back
  datatype Stream = Stream(
    q: Queue, sent: Bytes, enqueued: seq<Bytes>, done: seq<Bytes>, kept: seq<nat>, removed: seq<Option<nat>>)

  function Kept(x: Stream): seq<Bytes>
  {
    x.done + x.q.buffer
  }

  function SendStep(x: Stream, w: nat): Stream
    requires CanSend(x.q, w)
  {
    x.(q := Send(x.q, w),
       sent := x.sent + x.q.buffer[0][x.q.cursor..x.q.cursor + w],
       done := if x.q.cursor + w == |x.q.buffer[0]| then x.done + [x.q.buffer[0]] else x.done,
       removed := x.removed + [None])
  }

  function EnqueueStep(x: Stream, m: Bytes): Stream
  {
    x.(q := Enqueue(x.q, m), enqueued := x.enqueued + [m], kept := x.kept + [|x.enqueued|],
       removed := x.removed + [None])
  }

  // message k of the queue is taken back
  function CancelStep(x: Stream, k: nat): Stream
    requires k < |x.q.buffer| && |x.done| + k < |x.kept|
  {
    x.(q := RemoveAt(x.q, k), kept := Without(x.kept, |x.done| + k),
       removed := x.removed + [Some(x.kept[|x.done| + k])])
  }

  ghost predicate Step(x: Stream, op: Op, y: Stream)
  {
    match op
    case EnqueueOp(m) => m != [] && y == EnqueueStep(x, m)
    case SendOp(w) => CanSend(x.q, w) && y == SendStep(x, w)
    case CancelOp(i, b, n) =>
      if exists k :: CancelsAt(x.q, i, b, n, k) then
        exists k :: CancelsAt(x.q, i, b, n, k) && |x.done| + k < |x.kept| && y == CancelStep(x, k)
      else y == x.(removed := x.removed + [None])
  }

  // 'msgs' are the messages at these positions of 'enqueued', in order
  ghost predicate Selects(enqueued: seq<Bytes>, kept: seq<nat>, msgs: seq<Bytes>)
  {
    && |kept| == |msgs|
    && (forall j :: 0 <= j < |kept| ==> kept[j] < |enqueued| && enqueued[kept[j]] == msgs[j])
    && (forall j, k :: 0 <= j < k < |kept| ==> kept[j] < kept[k])
  }

  // the part of the front message that is already sent
  function FrontSent(q: Queue): Bytes
    requires Wf(q)
  {
    if q.buffer == [] then [] else q.buffer[0][..q.cursor]
  }

  ghost predicate Framed(x: Stream)
  {
    && Wf(x.q)
    && x.sent == Join(x.done) + FrontSent(x.q)
    && Selects(x.enqueued, x.kept, Kept(x))
  }

  lemma FrontSplit(q: Queue)
    requires Wf(q)
    ensures FrontSent(q) + Remainder(q) == Join(q.buffer)
  {
    if q.buffer != [] {
      assert q.buffer[0] == q.buffer[0][..q.cursor] + q.buffer[0][q.cursor..];
    }
  }

  // sent and unsent bytes together are the kept messages, whole and in order
  lemma FramedStream(x: Stream)
    requires Framed(x)
    ensures x.sent + Remainder(x.q) == Join(Kept(x))
  {
    JoinAppend(x.done, x.q.buffer);
    FrontSplit(x.q);
    Regroup(Join(x.done), FrontSent(x.q), Remainder(x.q));
  }

  lemma Regroup<T>(a: seq<T>, b: seq<T>, c: seq<T>)
    ensures a + b + c == a + (b + c)
  {
  }

  lemma SelectAppend(enqueued: seq<Bytes>, kept: seq<nat>, msgs: seq<Bytes>, m: Bytes)
    requires Selects(enqueued, kept, msgs)
    ensures Selects(enqueued + [m], kept + [|enqueued|], msgs + [m])
  {
  }

  lemma SelectWithout(enqueued: seq<Bytes>, kept: seq<nat>, msgs: seq<Bytes>, k: nat)
    requires Selects(enqueued, kept, msgs) && k < |kept|
    ensures Selects(enqueued, Without(kept, k), Without(msgs, k))
  {
  }

  lemma EnqueueWf(q: Queue, m: Bytes)
    requires Wf(q) && m != []
    ensures Wf(Enqueue(q, m)) && FrontSent(Enqueue(q, m)) == FrontSent(q)
  {
    TotalAppend(q.buffer, [m]);
  }

  lemma EnqueueFramed(x: Stream, m: Bytes)
    requires Framed(x) && m != []
    ensures Framed(EnqueueStep(x, m))
  {
    EnqueueWf(x.q, m);
    SelectAppend(x.enqueued, x.kept, Kept(x), m);
    Regroup(x.done, x.q.buffer, [m]);
  }

  lemma SendWf(q: Queue, w: nat)
    requires Wf(q) && CanSend(q, w)
    ensures Wf(Send(q, w))
    ensures var m := q.buffer[0];
            FrontSent(q) + m[q.cursor..q.cursor + w] ==
              (if q.cursor + w == |m| then m else FrontSent(Send(q, w)))
    ensures q.cursor + w == |q.buffer[0]| ==> FrontSent(Send(q, w)) == []
  {
    var m, c := q.buffer[0], q.cursor;
    assert m[..c] + m[c..c + w] == m[..c + w];
  }

  // a message sent to its end moves to the messages done; nothing else is regrouped
  lemma DoneGrows(done: seq<Bytes>, buffer: seq<Bytes>)
    requires buffer != []
    ensures Join(done + [buffer[0]]) == Join(done) + buffer[0]
    ensures done + [buffer[0]] + buffer[1..] == done + buffer
  {
    JoinAppend(done, [buffer[0]]);
    assert Join([buffer[0]]) == buffer[0] + [] == buffer[0];
    assert [buffer[0]] + buffer[1..] == buffer;
    Regroup(done, [buffer[0]], buffer[1..]);
  }

  lemma SendFramed(x: Stream, w: nat)
    requires Framed(x) && CanSend(x.q, w)
    ensures Framed(SendStep(x, w))
  {
    hide Selects, Join, Wf;
    SendWf(x.q, w);
    var m, c := x.q.buffer[0], x.q.cursor;
    Regroup(Join(x.done), FrontSent(x.q), m[c..c + w]);
    if c + w == |m| {
      DoneGrows(x.done, x.q.buffer);
    }
  }

  lemma WithoutAppend<T>(a: seq<T>, b: seq<T>, k: nat)
    requires k < |b|
    ensures Without(a + b, |a| + k) == a + Without(b, k)
  {
  }

  lemma CancelFramed(x: Stream, k: nat)
    requires Framed(x) && Reachable(x.q) <= k < |x.q.buffer|
    ensures Framed(CancelStep(x, k))
  {
    RemoveWf(x.q, k);
    WithoutAppend(x.done, x.q.buffer, k);
    SelectWithout(x.enqueued, x.kept, Kept(x), |x.done| + k);
  }

  lemma StepFramed(x: Stream, op: Op, y: Stream)
    requires Framed(x) && Step(x, op, y)
    ensures Framed(y)
  {
    match op
    case EnqueueOp(m) => EnqueueFramed(x, m);
    case SendOp(w) => SendFramed(x, w);
    case CancelOp(i, b, n) =>
      if exists k :: CancelsAt(x.q, i, b, n, k) {
        var k :| CancelsAt(x.q, i, b, n, k) && |x.done| + k < |x.kept| && y == CancelStep(x, k);
        CancelFramed(x, k);
      }
  }

  const INIT := Stream(Queue([], 0, 0), [], [], [], [], [])

  lemma InitFramed()
    ensures Framed(INIT)
  {
  }

  // the states a connection's stream goes through under these operations
  ghost predicate IsRun(xs: seq<Stream>, ops: seq<Op>)
  {
    && |xs| == |ops| + 1
    && xs[0] == INIT
    && forall k :: 0 <= k < |ops| ==> Step(xs[k], ops[k], xs[k + 1])
  }

  lemma {:induction false} RunFramed(xs: seq<Stream>, ops: seq<Op>, k: nat)
    requires IsRun(xs, ops) && k < |xs|
    ensures Framed(xs[k])
  {
    if k == 0 {
      InitFramed();
    } else {
      RunFramed(xs, ops, k - 1);
      var x, y, op := xs[k - 1], xs[k - 1 + 1], ops[k - 1];
      StepFramed(x, op, y);
    }
  }

  lemma RunBytes(xs: seq<Stream>, ops: seq<Op>, k: nat)
    requires IsRun(xs, ops) && k < |xs|
    ensures Wf(xs[k].q) && xs[k].sent + Remainder(xs[k].q) == Join(Kept(xs[k]))
  {
    hide Remainder, Selects, FrontSent;
    RunFramed(xs, ops, k);
    FramedStream(xs[k]);
  }

  // the messages these operations enqueue, in order
  function EnqueuedBy(ops: seq<Op>): seq<Bytes>
  {
    if ops == [] then []
    else EnqueuedBy(ops[..|ops| - 1]) + (if ops[|ops| - 1].EnqueueOp? then [ops[|ops| - 1].m] else [])
  }

  // operation op took back message i of 'enqueued', which it names
  ghost predicate TookBack(enqueued: seq<Bytes>, op: Op, i: nat)
  {
    i < |enqueued| && op.CancelOp? && BytesNamePiece(enqueued[i], op.piece, op.begin, op.length)
  }

  // every enqueued message was either kept, or taken back by exactly one cancel that names it
  ghost predicate Accounted(x: Stream, ops: seq<Op>)
  {
    && |x.removed| == |ops| && x.enqueued == EnqueuedBy(ops)
    && (forall j :: 0 <= j < |ops| && x.removed[j].Some? ==> TookBack(x.enqueued, ops[j], x.removed[j].value))
    && (forall i, j :: 0 <= i < j < |ops| && x.removed[i].Some? ==> x.removed[i] != x.removed[j])
    && (forall i :: 0 <= i < |x.enqueued| ==> (i in x.kept <==> Some(i) !in x.removed))
  }

  lemma StepAccounted(x: Stream, ops: seq<Op>, op: Op, y: Stream)
    requires Framed(x) && Accounted(x, ops) && Step(x, op, y)
    ensures Accounted(y, ops + [op])
  {
    assert (ops + [op])[..|ops|] == ops;
    match op
    case EnqueueOp(m) =>
    case SendOp(w) =>
    case CancelOp(i, b, n) =>
      if exists k :: CancelsAt(x.q, i, b, n, k) {
        var k :| CancelsAt(x.q, i, b, n, k) && |x.done| + k < |x.kept| && y == CancelStep(x, k);
        CancelAccounted(x, ops, op, k);
      }
  }

  lemma CancelAccounted(x: Stream, ops: seq<Op>, op: Op, k: nat)
    requires Framed(x) && Accounted(x, ops) && op.CancelOp? && CancelsAt(x.q, op.piece, op.begin, op.length, k)
    ensures Accounted(CancelStep(x, k), ops + [op])
  {
    var y, at := CancelStep(x, k), |x.done| + k;
    assert (ops + [op])[..|ops|] == ops;
    assert Kept(x)[at] == x.q.buffer[k];
    assert Some(x.kept[at]) !in x.removed;
    forall i | 0 <= i < |y.enqueued| ensures i in y.kept <==> Some(i) !in y.removed {
      WithoutHas(x.kept, at, i);
    }
  }

  // increasing positions occur once
  lemma WithoutHas(kept: seq<nat>, at: nat, i: nat)
    requires at < |kept| && forall j, k :: 0 <= j < k < |kept| ==> kept[j] < kept[k]
    ensures i in Without(kept, at) <==> i in kept && i != kept[at]
  {
    if i in kept && i != kept[at] {
      var j :| 0 <= j < |kept| && kept[j] == i;
      assert Without(kept, at)[if j < at then j else j - 1] == i;
    }
  }

  lemma {:induction false} RunAccounted(xs: seq<Stream>, ops: seq<Op>, k: nat)
    requires IsRun(xs, ops) && k < |xs|
    ensures Accounted(xs[k], ops[..k])
  {
    if k == 0 {
    } else {
      RunAccounted(xs, ops, k - 1);
      RunFramed(xs, ops, k - 1);
      assert Step(xs[k - 1], ops[k - 1], xs[k - 1 + 1]);
      StepAccounted(xs[k - 1], ops[..k - 1], ops[k - 1], xs[k]);
      assert ops[..k] == ops[..k - 1] + [ops[k - 1]];
    }
  }

  // For any mix of enqueue, partial send and cancel: what the peer has seen plus
  // what is left to send is the enqueued messages, whole and in order, without
  // those that a cancel took back; each of these is named by the one cancel that
  // took it, and each cancel takes at most one. The byte count is exact.
  lemma StreamStaysFramed(xs: seq<Stream>, ops: seq<Op>, k: nat)
    requires IsRun(xs, ops) && k < |xs|
    ensures Wf(xs[k].q) && xs[k].sent + Remainder(xs[k].q) == Join(Kept(xs[k]))
    ensures Selects(xs[k].enqueued, xs[k].kept, Kept(xs[k])) && Accounted(xs[k], ops[..k])
    ensures xs[k].q.queued == Total(xs[k].q.buffer)
  {
    RunFramed(xs, ops, k);
    RunAccounted(xs, ops, k);
    FramedStream(xs[k]);
  }

  // As long as no cancel names an enqueued message, nothing at all is missing.
  lemma NothingLost(xs: seq<Stream>, ops: seq<Op>, k: nat)
    requires IsRun(xs, ops) && k < |xs|
    requires forall i, j :: 0 <= i && 0 <= j < k ==> !TookBack(EnqueuedBy(ops[..k]), ops[j], i)
    ensures Wf(xs[k].q) && xs[k].sent + Remainder(xs[k].q) == Join(EnqueuedBy(ops[..k]))
  {
    StreamStaysFramed(xs, ops, k);
    forall j | 0 <= j < k ensures xs[k].removed[j].None? {
      assert ops[..k][j] == ops[j];
    }
    AllKept(xs[k].enqueued, xs[k].kept, Kept(xs[k]));
  }

  lemma AllKept(enqueued: seq<Bytes>, kept: seq<nat>, msgs: seq<Bytes>)
    requires Selects(enqueued, kept, msgs) && forall i :: 0 <= i < |enqueued| ==> i in kept
    ensures msgs == enqueued
  {
    KeptInPlace(kept, |enqueued|, |kept|);
    assert |kept| == |enqueued|;
  }

  // increasing positions that leave none out are 0, 1, 2, ...
  lemma {:induction false} KeptInPlace(kept: seq<nat>, n: nat, m: nat)
    requires m <= |kept| && (forall j, k :: 0 <= j < k < |kept| ==> kept[j] < kept[k])
    requires (forall j :: 0 <= j < |kept| ==> kept[j] < n) && forall i :: 0 <= i < n ==> i in kept
    ensures forall j :: 0 <= j < m ==> kept[j] == j
    ensures m == |kept| ==> |kept| == n
  {
    if m > 0 {
      KeptInPlace(kept, n, m - 1);
      var j := m - 1;
      assert j > 0 ==> kept[j - 1] < kept[j];
      assert j in kept;
    }
    assert m < n ==> m in kept;
  }

  // ----- in place -----

  class WriteQueue {
    var writeBuffer: seq<Bytes>
    var cursor: nat
    var queuedBytes: int

    ghost function Value(): Queue
      reads this
    {
      Queue(writeBuffer, cursor, queuedBytes)
    }

    ghost predicate Valid()
      reads this
    {
      Wf(Value())
    }

    constructor ()
      ensures Valid() && Value() == Queue([], 0, 0)
    {
      writeBuffer, cursor, queuedBytes := [], 0, 0;
    }

    method Push(m: Bytes)
      requires Valid() && m != []
      modifies this
      ensures Valid() && Value() == Enqueue(old(Value()), m)
    {
      TotalAppend(writeBuffer, [m]);
      queuedBytes := queuedBytes + |m|;
      writeBuffer := writeBuffer + [m];
    }

    // send() accepted w bytes of the front message
    method Sent(w: nat)
      requires Valid() && CanSend(Value(), w)
      modifies this
      ensures Valid() && Value() == Send(old(Value()), w)
    {
      var front := writeBuffer[0];
      cursor := cursor + w;
      if cursor == |front| {
        queuedBytes := queuedBytes - |front|;
        writeBuffer := writeBuffer[1..];
        cursor := 0;
      }
    }

    method RemoveQueuedPiece(piece: nat, begin: nat, length: nat) returns (removed: bool)
      requires Valid()
      modifies this
      ensures Valid()
      ensures removed ==>
                exists k :: CancelsAt(old(Value()), piece, begin, length, k) && Value() == RemoveAt(old(Value()), k)
      ensures !removed ==> Value() == old(Value()) && forall k :: !CancelsAt(old(Value()), piece, begin, length, k)
    {
      var it := if cursor > 0 then 1 else 0;
      while it < |writeBuffer|
        invariant Reachable(Value()) <= it <= |writeBuffer|
        invariant Value() == old(Value())
        invariant forall j :: Reachable(Value()) <= j < it ==> !BytesNamePiece(writeBuffer[j], piece, begin, length)
      {
        var m := writeBuffer[it];
        if |m| == 13 + length && m[4] == MSG_PIECE && ReadBe32(m[5..]) == piece && ReadBe32(m[9..]) == begin {
          RemoveWf(Value(), it);
          assert CancelsAt(old(Value()), piece, begin, length, it);
          queuedBytes := queuedBytes - |m|;
          writeBuffer := Without(writeBuffer, it);
          return true;
        }
        it := it + 1;
      }
      return false;
    }
  }

  // ----- the same queue, message by message -----

  function Encoded(msgs: seq<Msg>): (r: seq<Bytes>)
    ensures |r| == |msgs|
    ensures forall k :: 0 <= k < |msgs| ==> r[k] == Encode(msgs[k])
  {
    seq(|msgs|, k requires 0 <= k < |msgs| => Encode(msgs[k]))
  }

  function OnWire(o: Outboxes.Outbox): Queue
  {
    Queue(Encoded(o.buffer), o.cursor, o.queued)
  }

  lemma EnqueueOnWire(o: Outboxes.Outbox, m: Msg)
    ensures OnWire(Outboxes.Enqueue(o, m)) == Enqueue(OnWire(o), Encode(m))
  {
    EncodeSize(m);
    assert Encoded(o.buffer + [m]) == Encoded(o.buffer) + [Encode(m)];
  }

  lemma SendOnWire(o: Outboxes.Outbox, w: nat)
    ensures Outboxes.CanSend(o, w) <==> CanSend(OnWire(o), w)
    ensures Outboxes.CanSend(o, w) ==> OnWire(Outboxes.Send(o, w)) == Send(OnWire(o), w)
  {
    if o.buffer != [] {
      EncodeSize(o.buffer[0]);
      assert Encoded(o.buffer[1..]) == Encoded(o.buffer)[1..];
    }
  }

  lemma EncodedNames(msgs: seq<Msg>, piece: nat, begin: nat, length: nat)
    requires forall m :: m in msgs ==> WfMsg(m)
    ensures forall j :: 0 <= j < |msgs| ==>
              (BytesNamePiece(Encoded(msgs)[j], piece, begin, length) <==> IsPiece(msgs[j], piece, begin, length))
  {
    forall j | 0 <= j < |msgs|
      ensures BytesNamePiece(Encoded(msgs)[j], piece, begin, length) <==> IsPiece(msgs[j], piece, begin, length)
    {
      ByteTestExact(msgs[j], piece, begin, length);
    }
  }

  lemma EncodedWithout(msgs: seq<Msg>, k: nat)
    requires k < |msgs|
    ensures Encoded(Without(msgs, k)) == Without(Encoded(msgs), k)
  {
  }

  // Cancelling in the message view removes the very bytes the byte view would.
  lemma CancelOnWire(o: Outboxes.Outbox, piece: nat, begin: nat, length: nat)
    requires Outboxes.Wf(o)
    ensures var k := Outboxes.CancelAt(o, piece, begin, length);
            if k < |o.buffer| then
              && CancelsAt(OnWire(o), piece, begin, length, k)
              && OnWire(Outboxes.Cancel(o, piece, begin, length)) == RemoveAt(OnWire(o), k)
            else
              && Outboxes.Cancel(o, piece, begin, length) == o
              && forall j :: !CancelsAt(OnWire(o), piece, begin, length, j)
  {
    var k := Outboxes.CancelAt(o, piece, begin, length);
    EncodedNames(o.buffer, piece, begin, length);
    if k < |o.buffer| {
      EncodeSize(o.buffer[k]);
      EncodedWithout(o.buffer, k);
    }
  }
}
