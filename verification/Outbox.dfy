// The outgoing queue of a connection (src/runtime/managers/peer_manager.cpp:
// enqueue, the send part of handle_events, remove_queued_piece, can_queue), one
// message at a time; WriteQueue.dfy relates it to the bytes on the wire.
module Outboxes {
  import opened Types
  import opened Wire

  // requests are not served while this much is queued
  const MAX_QUEUED: nat := 0x40_0000

  // whole messages, bytes of the first one already sent, and the byte count
  datatype Outbox = Outbox(buffer: seq<Msg>, cursor: nat, queued: int)

  const EMPTY := Outbox([], 0, 0)

  function Total(msgs: seq<Msg>): nat
  {
    if msgs == [] then 0 else Size(msgs[0]) + Total(msgs[1..])
  }

  function PieceTotal(msgs: seq<Msg>): nat
  {
    if msgs == [] then 0 else (if msgs[0].PieceMsg? then Size(msgs[0]) else 0) + PieceTotal(msgs[1..])
  }

  ghost predicate Wf(o: Outbox)
  {
    && o.queued == Total(o.buffer)
    && (if o.buffer == [] then o.cursor == 0 else o.cursor < Size(o.buffer[0]))
    && (forall m :: m in o.buffer ==> WfMsg(m))
  }

  function Enqueue(o: Outbox, m: Msg): Outbox
  {
    o.(buffer := o.buffer + [m], queued := o.queued + Size(m))
  }

  // the kernel took w more bytes of the front message
  predicate CanSend(o: Outbox, w: nat)
  {
    o.buffer != [] && o.cursor + w <= Size(o.buffer[0])
  }

  function Send(o: Outbox, w: nat): Outbox
    requires CanSend(o, w)
  {
    if o.cursor + w < Size(o.buffer[0]) then o.(cursor := o.cursor + w)
    else Outbox(o.buffer[1..], 0, o.queued - Size(o.buffer[0]))
  }

  // the first queued match at or after 'from', or |msgs|
  function FindPiece(msgs: seq<Msg>, from: nat, piece: nat, begin: nat, length: nat): (k: nat)
    requires from <= |msgs|
    ensures from <= k <= |msgs|
    ensures k < |msgs| ==> IsPiece(msgs[k], piece, begin, length)
    ensures forall j :: from <= j < k ==> !IsPiece(msgs[j], piece, begin, length)
    decreases |msgs| - from
  {
    if from == |msgs| || IsPiece(msgs[from], piece, begin, length) then from
    else FindPiece(msgs, from + 1, piece, begin, length)
  }

  // the front message is out of reach once its first bytes are gone
  function Reachable(o: Outbox): nat
  {
    if o.cursor > 0 && o.buffer != [] then 1 else 0
  }

  function CancelAt(o: Outbox, piece: nat, begin: nat, length: nat): nat
  {
    FindPiece(o.buffer, Reachable(o), piece, begin, length)
  }

  function Cancel(o: Outbox, piece: nat, begin: nat, length: nat): Outbox
  {
    var k := CancelAt(o, piece, begin, length);
    if k == |o.buffer| then o
    else Outbox(Without(o.buffer, k), o.cursor, o.queued - Size(o.buffer[k]))
  }

  lemma {:induction false} TotalAppend(a: seq<Msg>, b: seq<Msg>)
    ensures Total(a + b) == Total(a) + Total(b)
    ensures PieceTotal(a + b) == PieceTotal(a) + PieceTotal(b)
  {
    if a == [] {
      assert a + b == b;
    } else {
      TotalAppend(a[1..], b);
      assert (a + b)[1..] == a[1..] + b;
    }
  }

  lemma {:induction false} TotalWithout(msgs: seq<Msg>, k: nat)
    requires k < |msgs|
    ensures Total(msgs) == Total(Without(msgs, k)) + Size(msgs[k])
    ensures PieceTotal(msgs) == PieceTotal(Without(msgs, k)) + (if msgs[k].PieceMsg? then Size(msgs[k]) else 0)
  {
    var less := Without(msgs, k);
    if k == 0 {
      assert less == msgs[1..];
    } else {
      TotalWithout(msgs[1..], k - 1);
      assert less[0] == msgs[0] && less[1..] == Without(msgs[1..], k - 1);
    }
  }

  lemma {:induction false} PieceTotalBound(msgs: seq<Msg>)
    ensures PieceTotal(msgs) <= Total(msgs)
  {
    if msgs == [] {
    } else {
      PieceTotalBound(msgs[1..]);
    }
  }

  lemma EnqueueWf(o: Outbox, m: Msg)
    requires Wf(o) && WfMsg(m)
    ensures Wf(Enqueue(o, m))
    ensures PieceTotal(Enqueue(o, m).buffer) == PieceTotal(o.buffer) + (if m.PieceMsg? then Size(m) else 0)
  {
    TotalAppend(o.buffer, [m]);
  }

  lemma SendWf(o: Outbox, w: nat)
    requires Wf(o) && CanSend(o, w)
    ensures Wf(Send(o, w)) && PieceTotal(Send(o, w).buffer) <= PieceTotal(o.buffer)
  {
  }

  lemma CancelWf(o: Outbox, piece: nat, begin: nat, length: nat)
    requires Wf(o)
    ensures Wf(Cancel(o, piece, begin, length))
    ensures PieceTotal(Cancel(o, piece, begin, length).buffer) <= PieceTotal(o.buffer)
  {
    var k := CancelAt(o, piece, begin, length);
    if k < |o.buffer| {
      TotalWithout(o.buffer, k);
      if k > 0 { assert Without(o.buffer, k)[0] == o.buffer[0]; }
    }
  }
}
