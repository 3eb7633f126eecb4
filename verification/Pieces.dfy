// Which blocks are missing, requested or received (src/runtime/managers/piece_manager.cpp),
// as values and functions; PieceManager.dfy holds the in-place form.
module Pieces {
  import opened Types
  import opened Torrents

  datatype BlockState = Missing | Requested | Received

  datatype Partial = Partial(data: Bytes, states: seq<BlockState>, received: nat, owner: Option<nat>)

  datatype Pieces = Pieces(have: set<nat>, haveCount: nat, haveBytes: nat, active: map<nat, Partial>)

  datatype BlockResult = Rejected | Incomplete | PieceVerified(index: nat, data: Bytes) | PieceFailed(index: nat,
      data: Bytes)

  // ----- well-formedness -----

  function ReceivedCount(states: seq<BlockState>): (n: nat)
  {
    if states == [] then 0
    else ReceivedCount(states[..|states| - 1]) + (if states[|states| - 1] == Received then 1 else 0)
  }

  // the bytes of the owned pieces below n
  function BytesBelow(t: Torrent, have: set<nat>, n: nat): nat
    requires t.Valid() && n <= t.Count()
  {
    if n == 0 then 0 else BytesBelow(t, have, n - 1) + (if n - 1 in have then t.Size(n - 1) else 0)
  }

  ghost predicate WfPartial(t: Torrent, i: nat, pp: Partial)
    requires t.Valid()
  {
    && i < t.Count()
    && |pp.data| == t.Size(i)
    && |pp.states| == t.Blocks(i)
    && pp.received == ReceivedCount(pp.states) < |pp.states|
  }

  ghost predicate Wf(t: Torrent, ps: Pieces)
    requires t.Valid()
  {
    && (forall i :: i in ps.have ==> i < t.Count())
    && (forall i :: i in ps.active ==> i !in ps.have && WfPartial(t, i, ps.active[i]))
    && ps.haveCount == |ps.have|
    && ps.haveBytes == BytesBelow(t, ps.have, t.Count())
  }

  lemma {:induction false} CountUpdate(states: seq<BlockState>, b: nat, x: BlockState)
    requires b < |states|
    ensures ReceivedCount(states[b := x]) ==
            ReceivedCount(states) - (if states[b] == Received then 1 else 0) + (if x == Received then 1 else 0)
  {
    var n := |states| - 1;
    if b == n {
      assert states[b := x][..n] == states[..n];
    } else {
      CountUpdate(states[..n], b, x);
      assert states[b := x][..n] == states[..n][b := x];
    }
  }

  lemma {:induction false} CountBound(states: seq<BlockState>)
    ensures ReceivedCount(states) <= |states|
    ensures ReceivedCount(states) == |states| <==> forall b :: 0 <= b < |states| ==> states[b] == Received
  {
    if states == [] {
    } else {
      var n := |states| - 1;
      CountBound(states[..n]);
      if ReceivedCount(states) == |states| {
        forall b | 0 <= b < |states| ensures states[b] == Received {
          if b < n { assert states[..n][b] == Received; }
        }
      }
    }
  }

  // Changes that keep the Received blocks keep the count.
  lemma {:induction false} CountSame(states: seq<BlockState>, other: seq<BlockState>)
    requires |states| == |other|
    requires forall b :: 0 <= b < |states| ==> (states[b] == Received <==> other[b] == Received)
    ensures ReceivedCount(states) == ReceivedCount(other)
  {
    if states == [] {
    } else {
      CountSame(states[..|states| - 1], other[..|states| - 1]);
    }
  }

  lemma {:induction false} CountNone(states: seq<BlockState>)
    requires forall b :: 0 <= b < |states| ==> states[b] != Received
    ensures ReceivedCount(states) == 0
  {
    if states == [] {
    } else {
      CountNone(states[..|states| - 1]);
    }
  }

  lemma {:induction false} BytesBelowAdd(t: Torrent, have: set<nat>, i: nat, n: nat)
    requires t.Valid() && n <= t.Count() && i < t.Count() && i !in have
    ensures BytesBelow(t, have + {i}, n) == BytesBelow(t, have, n) + (if i < n then t.Size(i) else 0)
  {
    if n == 0 {
    } else {
      BytesBelowAdd(t, have, i, n - 1);
    }
  }

  lemma {:induction false} BytesBelowBound(t: Torrent, have: set<nat>, n: nat)
    requires t.Valid() && n <= t.Count()
    ensures var upTo := if n < t.Count() then t.Offset(n) else t.totalLength;
            && BytesBelow(t, have, n) <= upTo
            && (BytesBelow(t, have, n) == upTo <==> forall i :: 0 <= i < n ==> i in have)
  {
    if n == 0 {
    } else {
      BytesBelowBound(t, have, n - 1);
      assert t.Size(n - 1) >= 1;
      assert (forall i :: 0 <= i < n ==> i in have) <==> ((forall i :: 0 <= i < n - 1 ==> i in have) && n - 1 in have);
    }
  }

  // bytes_left never underflows and reaches 0 exactly when every piece is owned,
  // which is also when is_complete says so.
  lemma CountersExact(t: Torrent, ps: Pieces)
    requires t.Valid() && Wf(t, ps)
    ensures ps.haveBytes <= t.totalLength
    ensures t.totalLength - ps.haveBytes == 0 <==> ps.haveCount == t.Count()
    ensures ps.haveCount == t.Count() <==> forall i :: 0 <= i < t.Count() ==> i in ps.have
  {
    BytesBelowBound(t, ps.have, t.Count());
    AllIndices(t.Count(), ps.have);
  }

  lemma {:induction false} AllIndices(n: nat, s: set<nat>)
    requires forall i :: i in s ==> i < n
    ensures |s| <= n
    ensures |s| == n <==> forall i :: 0 <= i < n ==> i in s
  {
    if n == 0 {
    } else {
      var r := s - {n - 1};
      AllIndices(n - 1, r);
      if n - 1 in s {
        assert |s| == |r| + 1;
      } else {
        assert r == s;
      }
      assert forall i :: 0 <= i < n - 1 ==> (i in r <==> i in s);
    }
  }

  // ----- picking -----

  // block b of piece i is out with somebody
  ghost predicate IsRequested(t: Torrent, ps: Pieces, r: BlockRequest)
    requires t.Valid() && Wf(t, ps)
  {
    && r.piece in ps.active
    && var b := r.offset / BLOCK_SIZE;
    && b < |ps.active[r.piece].states|
    && ps.active[r.piece].states[b] == Requested
    && r == t.Request(r.piece, b)
  }

  ghost predicate IsFirstMissing(states: seq<BlockState>, b: nat)
  {
    b < |states| && states[b] == Missing && forall c :: 0 <= c < b ==> states[c] != Missing
  }

  ghost predicate HasMissing(states: seq<BlockState>)
  {
    exists b :: 0 <= b < |states| && states[b] == Missing
  }

  // an in-progress piece the peer can help with
  ghost predicate Offers(ps: Pieces, has: set<nat>, tag: nat, i: nat)
  {
    && i in ps.active
    && i in has
    && (ps.active[i].owner == None || ps.active[i].owner == Some(tag))
    && HasMissing(ps.active[i].states)
  }

  // a piece nobody has started that the peer could start
  ghost predicate Startable(count: nat, ps: Pieces, has: set<nat>, i: nat)
  {
    i < count && i !in ps.have && i !in ps.active && i in has
  }

  ghost predicate Rarest(count: nat, ps: Pieces, has: set<nat>, availability: seq<nat>, i: nat)
    requires |availability| == count
  {
    Startable(count, ps, has, i) && forall j: nat :: Startable(count, ps, has, j) ==> availability[i] <= availability[j]
  }

  // nothing left that this peer could be asked for
  ghost predicate Exhausted(count: nat, ps: Pieces, has: set<nat>, tag: nat)
  {
    && (forall i :: !Offers(ps, has, tag, i))
    && (forall i :: !Startable(count, ps, has, i))
  }

  function Started(t: Torrent, i: nat): (pp: Partial)
    requires t.Valid() && i < t.Count()
    ensures |pp.data| == t.Size(i) && |pp.states| == t.Blocks(i)
  {
    Partial(seq(t.Size(i), _ => 0), seq(t.Blocks(i), _ => Missing), 0, None)
  }

  function Take(ps: Pieces, i: nat, pp: Partial, b: nat): Pieces
    requires b < |pp.states|
  {
    ps.(active := ps.active[i := pp.(states := pp.states[b := Requested])])
  }

  // pick_block: the order of active_ and the random draw are not determined, so
  // this is a relation. In-progress pieces first, else a rarest startable one.
  ghost predicate PickStep(t: Torrent, ps: Pieces, has: set<nat>, availability: seq<nat>, tag: nat,
                           ps': Pieces, r: Option<BlockRequest>)
    requires t.Valid() && Wf(t, ps) && |availability| == t.Count()
  {
    match r
    case None => Exhausted(t.Count(), ps, has, tag) && ps' == ps
    case Some(req) =>
      var b := req.offset / BLOCK_SIZE;
      || (&& Offers(ps, has, tag, req.piece)
          && IsFirstMissing(ps.active[req.piece].states, b)
          && ps' == Take(ps, req.piece, ps.active[req.piece], b)
          && req == t.Request(req.piece, b))
      || (&& (forall i :: !Offers(ps, has, tag, i))
          && Rarest(t.Count(), ps, has, availability, req.piece)
          && ps' == Take(ps, req.piece, Started(t, req.piece), 0)
          && req == t.Request(req.piece, 0))
  }

  lemma TakeWf(t: Torrent, ps: Pieces, i: nat, pp: Partial, b: nat)
    requires t.Valid() && Wf(t, ps) && WfPartial(t, i, pp) && i !in ps.have
    requires b < |pp.states| && pp.states[b] == Missing
    ensures Wf(t, Take(ps, i, pp, b))
  {
    CountUpdate(pp.states, b, Requested);
  }

  lemma TakeRequests(t: Torrent, ps: Pieces, i: nat, pp: Partial, b: nat)
    requires t.Valid() && Wf(t, ps) && WfPartial(t, i, pp)
    requires b < |pp.states| && pp.states[b] == Missing
    requires if i in ps.active then pp == ps.active[i] else forall c :: 0 <= c < |pp.states| ==> pp.states[c] == Missing
    requires Wf(t, Take(ps, i, pp, b))
    ensures !IsRequested(t, ps, t.Request(i, b))
    ensures forall q :: IsRequested(t, Take(ps, i, pp, b), q) <==> IsRequested(t, ps, q) || q == t.Request(i, b)
  {
    assert t.Request(i, b).offset / BLOCK_SIZE == b;
    var ps' := Take(ps, i, pp, b);
    forall q ensures IsRequested(t, ps', q) <==> IsRequested(t, ps, q) || q == t.Request(i, b) {
      var c := q.offset / BLOCK_SIZE;
      if q.piece == i && c != b && c < |pp.states| {
        assert ps'.active[i].states[c] == pp.states[c];
      }
    }
  }

  // A pick turns exactly one block, not requested so far, into a requested one.
  lemma PickRequests(t: Torrent, ps: Pieces, has: set<nat>, availability: seq<nat>, tag: nat, ps': Pieces,
                     req: BlockRequest)
    requires t.Valid() && Wf(t, ps) && |availability| == t.Count()
    requires PickStep(t, ps, has, availability, tag, ps', Some(req))
    ensures Wf(t, ps')
    ensures !IsRequested(t, ps, req)
    ensures forall q :: IsRequested(t, ps', q) <==> IsRequested(t, ps, q) || q == req
    ensures req.piece in has && req.piece < t.Count() && req.piece !in ps.have
    ensures ps'.have == ps.have && ps'.active.Keys == ps.active.Keys + {req.piece}
  {
    if Offers(ps, has, tag, req.piece) {
      TakeWf(t, ps, req.piece, ps.active[req.piece], req.offset / BLOCK_SIZE);
      TakeRequests(t, ps, req.piece, ps.active[req.piece], req.offset / BLOCK_SIZE);
    } else {
      var pp := Started(t, req.piece);
      CountNone(pp.states);
      TakeWf(t, ps, req.piece, pp, 0);
      TakeRequests(t, ps, req.piece, pp, 0);
    }
  }

  // What one peer's pick leaves behind gives no other exhausted peer new work.
  lemma PickKeepsExhausted(t: Torrent, ps: Pieces, has: set<nat>, availability: seq<nat>, tag: nat,
                           ps': Pieces, r: Option<BlockRequest>, has2: set<nat>, tag2: nat)
    requires t.Valid() && Wf(t, ps) && |availability| == t.Count()
    requires PickStep(t, ps, has, availability, tag, ps', r)
    requires Exhausted(t.Count(), ps, has2, tag2)
    ensures Exhausted(t.Count(), ps', has2, tag2)
  {
    if r.Some? {
      var i := r.value.piece;
      assert !Startable(t.Count(), ps, has2, i);
      forall j ensures !Offers(ps', has2, tag2, j) {
        assert !Offers(ps, has2, tag2, j);
        if i in ps.active && HasMissing(ps'.active[i].states) {
          var b :| 0 <= b < |ps'.active[i].states| && ps'.active[i].states[b] == Missing;
          assert ps.active[i].states[b] == Missing;
        }
      }
      forall j ensures !Startable(t.Count(), ps', has2, j) {
        assert !Startable(t.Count(), ps, has2, j);
      }
    }
  }

  // ----- arrivals -----

  function MarkHave(t: Torrent, ps: Pieces, i: nat): Pieces
    requires t.Valid() && i < t.Count()
  {
    ps.(have := ps.have + {i}, haveCount := ps.haveCount + 1, haveBytes := ps.haveBytes + t.Size(i))
  }

  predicate Fits(t: Torrent, ps: Pieces, block: Block)
  {
    && block.piece < t.Count()
    && block.piece !in ps.have
    && block.piece in ps.active
    && block.offset % BLOCK_SIZE == 0
    && block.offset / BLOCK_SIZE < |ps.active[block.piece].states|
    && block.offset + |block.data| <= |ps.active[block.piece].data|
    && ps.active[block.piece].states[block.offset / BLOCK_SIZE] != Received
  }

  // the partial piece once the block has been copied in
  function Stored(pp: Partial, block: Block): Partial
    requires block.offset / BLOCK_SIZE < |pp.states| && block.offset + |block.data| <= |pp.data|
  {
    pp.(data := Splice(pp.data, block.offset, block.data),
        states := pp.states[block.offset / BLOCK_SIZE := Received],
        received := pp.received + 1)
  }

  function OnBlock(t: Torrent, ps: Pieces, block: Block): (r: (Pieces, BlockResult))
    requires t.Valid()
  {
    if !Fits(t, ps, block) then (ps, Rejected)
    else
      var i := block.piece;
      var pp := Stored(ps.active[i], block);
      if pp.received < |pp.states| then (ps.(active := ps.active[i := pp]), Incomplete)
      else if !t.Verify(i, pp.data) then
        (ps.(active := ps.active[i := pp.(states := seq(|pp.states|, _ => Missing), received := 0)]),
         PieceFailed(i, pp.data))
      else
        (MarkHave(t, ps.(active := ps.active - {i}), i), PieceVerified(i, pp.data))
  }

  function RequestOf(block: Block): BlockRequest
  {
    BlockRequest(block.piece, block.offset, |block.data|)
  }

  lemma RequestedFits(t: Torrent, ps: Pieces, block: Block)
    requires t.Valid() && Wf(t, ps) && IsRequested(t, ps, RequestOf(block))
    ensures Fits(t, ps, block) && block.offset / BLOCK_SIZE < t.Blocks(block.piece)
    ensures t.Request(block.piece, block.offset / BLOCK_SIZE) == RequestOf(block)
  {
  }

  // A block that was asked for is always accepted, and accepting it makes
  // exactly that block stop being requested.
  lemma ArrivalAccepted(t: Torrent, ps: Pieces, block: Block)
    requires t.Valid() && Wf(t, ps) && IsRequested(t, ps, RequestOf(block))
    ensures var (ps', res) := OnBlock(t, ps, block);
            && res != Rejected
            && Wf(t, ps')
            && (forall q :: IsRequested(t, ps', q) <==> IsRequested(t, ps, q) && q != RequestOf(block))
    ensures Fits(t, ps, block) && block.offset / BLOCK_SIZE < t.Blocks(block.piece)
    ensures t.Request(block.piece, block.offset / BLOCK_SIZE) == RequestOf(block)
  {
    hide IsRequested, Wf;
    RequestedFits(t, ps, block);
    AcceptedWf(t, ps, block);
    var (ps', res) := OnBlock(t, ps, block);
    forall q ensures IsRequested(t, ps', q) <==> IsRequested(t, ps, q) && q != RequestOf(block) {
      ArrivalRequests(t, ps, block, q);
    }
  }

  lemma ArrivalRequests(t: Torrent, ps: Pieces, block: Block, q: BlockRequest)
    requires t.Valid() && Wf(t, ps) && IsRequested(t, ps, RequestOf(block)) && Fits(t, ps, block)
    ensures var ps' := OnBlock(t, ps, block).0;
            Wf(t, ps') && (IsRequested(t, ps', q) <==> IsRequested(t, ps, q) && q != RequestOf(block))
  {
    var i, b := block.piece, block.offset / BLOCK_SIZE;
    var pp := Stored(ps.active[i], block);
    CountUpdate(ps.active[i].states, b, Received);
    CountBound(pp.states);
    AcceptedWf(t, ps, block);
    if pp.received == |pp.states| && q.offset / BLOCK_SIZE < |pp.states| {
      assert pp.states[q.offset / BLOCK_SIZE] == Received;
    }
  }

  lemma AcceptedWf(t: Torrent, ps: Pieces, block: Block)
    requires t.Valid() && Wf(t, ps)
    ensures Wf(t, OnBlock(t, ps, block).0)
  {
    if Fits(t, ps, block) {
      var i, b := block.piece, block.offset / BLOCK_SIZE;
      var pp := Stored(ps.active[i], block);
      CountUpdate(ps.active[i].states, b, Received);
      CountBound(pp.states);
      CountNone(seq(|pp.states|, _ => Missing));
      BytesBelowAdd(t, ps.have, i, t.Count());
    }
  }

  // Copying block b in replaces slice b and no other.
  lemma StoredSlices(t: Torrent, i: nat, pp: Partial, block: Block, c: nat)
    requires t.Valid() && WfPartial(t, i, pp) && c < t.Blocks(i)
    requires block.offset % BLOCK_SIZE == 0 && block.offset / BLOCK_SIZE < t.Blocks(i)
    requires |block.data| == t.BlockLength(i, block.offset / BLOCK_SIZE)
    ensures t.Slice(i, c, Stored(pp, block).data) ==
            if c == block.offset / BLOCK_SIZE then block.data else t.Slice(i, c, pp.data)
  {
    var b := block.offset / BLOCK_SIZE;
    assert block.offset == b * BLOCK_SIZE;
    if c < b {
      assert c * BLOCK_SIZE + t.BlockLength(i, c) <= b * BLOCK_SIZE;
    } else if b < c {
      assert b * BLOCK_SIZE + t.BlockLength(i, b) <= c * BLOCK_SIZE;
    }
  }

  // ----- giving requests back -----

  predicate Names(reqs: seq<BlockRequest>, i: nat, b: nat)
  {
    exists k :: 0 <= k < |reqs| && reqs[k].piece == i && reqs[k].offset / BLOCK_SIZE == b
  }

  function ReleasedStates(i: nat, states: seq<BlockState>, reqs: seq<BlockRequest>): (s: seq<BlockState>)
    ensures |s| == |states|
  {
    seq(|states|, b requires 0 <= b < |states| =>
          if states[b] == Requested && Names(reqs, i, b) then Missing else states[b])
  }

  function Release(ps: Pieces, reqs: seq<BlockRequest>): Pieces
  {
    ps.(active := map i | i in ps.active ::
                    ps.active[i].(states := ReleasedStates(i, ps.active[i].states, reqs)))
  }

  // Giving back requests that are out makes exactly those blocks available again.
  lemma ReleaseGivesBack(t: Torrent, ps: Pieces, reqs: seq<BlockRequest>)
    requires t.Valid() && Wf(t, ps)
    requires forall k :: 0 <= k < |reqs| ==> IsRequested(t, ps, reqs[k])
    ensures Wf(t, Release(ps, reqs))
    ensures forall q :: IsRequested(t, Release(ps, reqs), q) <==> IsRequested(t, ps, q) && q !in reqs
  {
    var ps' := Release(ps, reqs);
    forall i | i in ps'.active ensures WfPartial(t, i, ps'.active[i]) {
      CountSame(ps.active[i].states, ps'.active[i].states);
    }
    forall q ensures IsRequested(t, ps', q) <==> IsRequested(t, ps, q) && q !in reqs {
      if IsRequested(t, ps, q) {
        var b := q.offset / BLOCK_SIZE;
        assert Names(reqs, q.piece, b) <==> q in reqs;
      }
    }
  }
}
