// PieceManager (src/runtime/managers/piece_manager.cpp), updating its tables in place.
module PieceManagers {
  import opened Types
  import opened Torrents
  import opened P = Pieces

  class PieceManager {
    const torrent: Torrent
    var have: set<nat>
    var haveCount: nat
    var haveBytes: nat
    var active: map<nat, Partial>

    ghost function Value(): P.Pieces
      reads this
    {
      P.Pieces(have, haveCount, haveBytes, active)
    }

    ghost predicate Valid()
      reads this
    {
      torrent.Valid() && Wf(torrent, Value())
    }

    constructor (torrent: Torrent)
      requires torrent.Valid()
      ensures Valid() && this.torrent == torrent && Value() == P.Pieces({}, 0, 0, map[])
    {
      this.torrent := torrent;
      have, haveCount, haveBytes, active := {}, 0, 0, map[];
      new;
      NothingBelow(torrent, torrent.Count());
    }

    method IsComplete() returns (complete: bool)
      requires Valid()
      ensures complete <==> forall i :: 0 <= i < torrent.Count() ==> i in have
    {
      CountersExact(torrent, Value());
      complete := haveCount == torrent.Count();
    }

    // total_length minus have_bytes_, which never underflows
    method BytesLeft() returns (left: nat)
      requires Valid()
      ensures left == torrent.totalLength - BytesBelow(torrent, have, torrent.Count())
      ensures left == 0 <==> forall i :: 0 <= i < torrent.Count() ==> i in have
    {
      CountersExact(torrent, Value());
      left := torrent.totalLength - haveBytes;
    }

    // mark the first Missing block of an active piece as requested
    method NextMissing(index: nat) returns (r: Option<BlockRequest>)
      requires Valid() && index in active
      modifies this`active
      ensures Valid()
      ensures r.None? ==> Value() == old(Value()) && !HasMissing(active[index].states)
      ensures r.Some? ==>
                var b := r.value.offset / BLOCK_SIZE;
                && IsFirstMissing(old(active)[index].states, b)
                && r.value == torrent.Request(index, b)
                && Value() == Take(old(Value()), index, old(active)[index], b)
    {
      var pp := active[index];
      var b := 0;
      while b < |pp.states|
        invariant 0 <= b <= |pp.states|
        invariant forall c :: 0 <= c < b ==> pp.states[c] != Missing
        invariant active == old(active)
      {
        if pp.states[b] == Missing {
          TakeWf(torrent, Value(), index, pp, b);
          active := active[index := pp.(states := pp.states[b := Requested])];
          var offset := b * BLOCK_SIZE;
          var length := Min(BLOCK_SIZE, torrent.Size(index) - offset);
          return Some(BlockRequest(index, offset, length));
        }
        b := b + 1;
      }
      return None;
    }

    method Activate(index: nat)
      requires Valid() && index < torrent.Count() && index !in have && index !in active
      modifies this`active
      ensures Valid()
      ensures Value() == old(Value()).(active := old(active)[index := Started(torrent, index)])
    {
      var len := torrent.Size(index);
      var pp := Partial(seq(len, _ => 0), seq((len + BLOCK_SIZE - 1) / BLOCK_SIZE, _ => Missing), 0, None);
      CountNone(pp.states);
      active := active[index := pp];
    }

    // the pieces the peer could start that are tied for the lowest availability
    method RarestStartable(peerHas: set<nat>, availability: seq<nat>) returns (candidates: seq<nat>)
      requires Valid() && |availability| == torrent.Count()
      requires forall i :: 0 <= i < |availability| ==> availability[i] < 0x1_0000
      ensures forall k :: 0 <= k < |candidates| ==>
              Rarest(torrent.Count(), Value(), peerHas, availability, candidates[k])
      ensures candidates == [] ==> forall i :: !Startable(torrent.Count(), Value(), peerHas, i)
    {
      var best := 0xFFFF;
      candidates := [];
      var i := 0;
      while i < torrent.Count()
        invariant 0 <= i <= torrent.Count()
        invariant forall k :: 0 <= k < |candidates| ==>
                    candidates[k] < i && Startable(torrent.Count(), Value(), peerHas, candidates[k])
                        && availability[candidates[k]] == best
        invariant forall j :: 0 <= j < i && Startable(torrent.Count(), Value(), peerHas, j) ==> best <= availability[j]
        invariant candidates == [] ==> best == 0xFFFF && forall j :: 0 <= j < i ==>
                  !Startable(torrent.Count(), Value(), peerHas, j)
      {
        if i !in have && i !in active && i in peerHas {
          assert Startable(torrent.Count(), Value(), peerHas, i);
          var avail := availability[i];
          if avail < best {
            best := avail;
            candidates := [];
          }
          if avail == best {
            candidates := candidates + [i];
          }
        }
        i := i + 1;
      }
      assert forall j: nat :: Startable(torrent.Count(), Value(), peerHas, j) ==> j < torrent.Count();
    }

    // Which in-progress piece comes first and which of the rarest pieces is
    // started depends on the hash map and the random generator.
    method PickBlock(peerHas: set<nat>, availability: seq<nat>, tag: nat) returns (r: Option<BlockRequest>)
      requires Valid() && |availability| == torrent.Count()
      requires forall i :: 0 <= i < |availability| ==> availability[i] < 0x1_0000
      modifies this`active
      ensures Valid()
      ensures PickStep(torrent, old(Value()), peerHas, availability, tag, Value(), r)
    {
      var todo := active.Keys;
      while todo != {}
        invariant todo <= active.Keys && Value() == old(Value())
        invariant forall i :: i in active.Keys - todo ==> !Offers(Value(), peerHas, tag, i)
        decreases todo
      {
        var index :| index in todo;
        todo := todo - {index};
        if index in peerHas && (active[index].owner == None || active[index].owner == Some(tag)) {
          r := NextMissing(index);
          if r.Some? {
            return;
          }
        }
      }
      assert forall i :: Offers(Value(), peerHas, tag, i) ==> i in active.Keys;

      var candidates := RarestStartable(peerHas, availability);
      if candidates == [] { return None; }
      var draw: nat :| draw < |candidates|;
      var index := candidates[draw];
      assert Rarest(torrent.Count(), old(Value()), peerHas, availability, index);
      ghost var before := Value();
      Activate(index);
      StartedFirst(torrent, before, index);
      r := NextMissing(index);
    }

    method MarkHave(index: nat)
      requires torrent.Valid() && index < torrent.Count()
      modifies this
      ensures Value() == P.MarkHave(torrent, old(Value()), index)
    {
      have := have + {index};
      haveCount := haveCount + 1;
      haveBytes := haveBytes + torrent.Size(index);
    }

    method OnBlock(block: Block) returns (result: BlockResult)
      requires Valid()
      modifies this
      ensures Valid()
      ensures (Value(), result) == P.OnBlock(torrent, old(Value()), block)
    {
      if block.piece >= torrent.Count() { return Rejected; }
      if block.piece in have { return Rejected; }
      if block.piece !in active { return Rejected; }
      if block.offset % BLOCK_SIZE != 0 { return Rejected; }
      if block.offset / BLOCK_SIZE >= |active[block.piece].states| { return Rejected; }
      if block.offset + |block.data| > |active[block.piece].data| { return Rejected; }
      if active[block.piece].states[block.offset / BLOCK_SIZE] == Received { return Rejected; }
      AcceptedWf(torrent, Value(), block);
      result := FileBlock(block);
    }

    // the second half of on_block: copy the bytes in, judge a completed piece
    method FileBlock(block: Block) returns (result: BlockResult)
      requires torrent.Valid() && Fits(torrent, Value(), block)
      modifies this
      ensures (Value(), result) == P.OnBlock(torrent, old(Value()), block)
    {
      ghost var before := Value();
      var pp := active[block.piece];
      pp := pp.(data := Splice(pp.data, block.offset, block.data));
      pp := pp.(received := pp.received + 1);
      pp := pp.(states := pp.states[block.offset / BLOCK_SIZE := Received]);
      assert pp == Stored(before.active[block.piece], block);

      if pp.received < |pp.states| {
        active := active[block.piece := pp];
        return Incomplete;
      }
      if !torrent.Verify(block.piece, pp.data) {
        active := active[block.piece := pp.(states := seq(|pp.states|, _ => Missing), received := 0)];
        return PieceFailed(block.piece, pp.data);
      }
      active := active - {block.piece};
      MarkHave(block.piece);
      return PieceVerified(block.piece, pp.data);
    }

    method Release(reqs: seq<BlockRequest>)
      requires Valid()
      modifies this`active
      ensures Valid()
      ensures Value() == P.Release(old(Value()), reqs)
    {
      ghost var before := Value();
      var k := 0;
      ReleaseNothing(before);
      while k < |reqs|
        invariant 0 <= k <= |reqs|
        invariant Value() == P.Release(before, reqs[..k])
      {
        var req := reqs[k];
        var b := req.offset / BLOCK_SIZE;
        ReleaseOneMore(before, reqs[..k], req);
        assert reqs[..k + 1] == reqs[..k] + [req];
        if req.piece in active {
          var pp := active[req.piece];
          if b < |pp.states| && pp.states[b] == Requested {
            active := active[req.piece := pp.(states := pp.states[b := Missing])];
          }
        }
        k := k + 1;
      }
      assert reqs[..k] == reqs;
      ReleaseWf(torrent, before, reqs);
    }

    method Recheck(index: nat, data: Bytes) returns (ok: bool)
      requires Valid() && index < torrent.Count()
      modifies this
      ensures index !in old(have) && index !in old(active) ==> Valid()
      ensures ok <==> torrent.Verify(index, data)
      ensures Value() == if ok then P.MarkHave(torrent, old(Value()), index) else old(Value())
    {
      ok := torrent.Verify(index, data);
      if ok {
        if index !in have {
          BytesBelowAdd(torrent, have, index, torrent.Count());
        }
        MarkHave(index);
      }
    }
  }

  lemma {:induction false} NothingBelow(t: Torrent, n: nat)
    requires t.Valid() && n <= t.Count()
    ensures BytesBelow(t, {}, n) == 0
  {
    if n == 0 {
    } else {
      NothingBelow(t, n - 1);
    }
  }

  // the first block of a piece just started
  lemma StartedFirst(t: Torrent, ps: P.Pieces, index: nat)
    requires t.Valid() && index < t.Count()
    ensures IsFirstMissing(Started(t, index).states, 0) && HasMissing(Started(t, index).states)
    ensures var ps1 := ps.(active := ps.active[index := Started(t, index)]);
            Take(ps1, index, Started(t, index), 0) == Take(ps, index, Started(t, index), 0)
  {
    assert Started(t, index).states[0] == Missing;
    var pp := Started(t, index);
    var qq := pp.(states := pp.states[0 := Requested]);
    assert ps.active[index := pp][index := qq] == ps.active[index := qq];
  }

  lemma ReleaseNothing(ps: P.Pieces)
    ensures P.Release(ps, []) == ps
  {
    forall i | i in ps.active ensures ReleasedStates(i, ps.active[i].states, []) == ps.active[i].states {
    }
    assert P.Release(ps, []).active == ps.active;
  }

  // giving back one more request touches at most its own block
  lemma ReleaseOneMore(ps: P.Pieces, reqs: seq<BlockRequest>, req: BlockRequest)
    ensures var done, more := P.Release(ps, reqs), P.Release(ps, reqs + [req]);
            var i, b := req.piece, req.offset / BLOCK_SIZE;
            more == if i in done.active && b < |done.active[i].states| && done.active[i].states[b] == Requested
                    then
                      var pp := done.active[i];
                      done.(active := done.active[i := pp.(states := pp.states[b := Missing])])
                    else done
  {
    var done, more := P.Release(ps, reqs), P.Release(ps, reqs + [req]);
    var i, b := req.piece, req.offset / BLOCK_SIZE;
    forall j, c ensures Names(reqs + [req], j, c) <==> Names(reqs, j, c) || (j == i && c == b) {
      if Names(reqs, j, c) {
        var k :| 0 <= k < |reqs| && reqs[k].piece == j && reqs[k].offset / BLOCK_SIZE == c;
        assert (reqs + [req])[k] == reqs[k];
      }
      assert (reqs + [req])[|reqs|] == req;
    }
    forall j | j in ps.active && j != i ensures more.active[j] == done.active[j] {
      assert ReleasedStates(j, ps.active[j].states, reqs + [req]) == ReleasedStates(j, ps.active[j].states, reqs);
    }
    if i in ps.active {
      var s, m := done.active[i].states, more.active[i].states;
      if b < |s| && s[b] == Requested {
        assert m == s[b := Missing];
      } else {
        assert m == s;
      }
      assert more.active == if b < |s| && s[b] == Requested
                            then done.active[i := done.active[i].(states := s[b := Missing])] else done.active;
    } else {
      assert more.active == done.active;
    }
  }

  lemma ReleaseWf(t: Torrent, ps: P.Pieces, reqs: seq<BlockRequest>)
    requires t.Valid() && Wf(t, ps)
    ensures Wf(t, P.Release(ps, reqs))
  {
    var ps' := P.Release(ps, reqs);
    forall i | i in ps'.active ensures WfPartial(t, i, ps'.active[i]) {
      CountSame(ps.active[i].states, ps'.active[i].states);
    }
  }
}
