// Who sent which block, and who is to blame for bad data
// (src/runtime/managers/ban_manager.cpp), as values and functions.
module Bans {
  import opened Types
  import opened Torrents

  // a failed attempt: its bytes and the peer id that sent each block
  datatype Evidence = Evidence(data: Bytes, senders: seq<nat>)

  datatype Bans = Bans(hosts: map<nat, Host>, senders: map<nat, seq<nat>>, evidence: map<nat, Evidence>)

  function OnJoin(bs: Bans, peer: nat, host: Host): Bans
  {
    bs.(hosts := bs.hosts[peer := host])
  }

  function SlotsOf(bs: Bans, i: nat): seq<nat>
  {
    if i in bs.senders then bs.senders[i] else []
  }

  // slots are created on demand and start out naming peer 0
  function WithSlot(slots: seq<nat>, b: nat, peer: nat): (r: seq<nat>)
    ensures |r| == (if b < |slots| then |slots| else b + 1)
    ensures r[b] == peer
    ensures forall k :: 0 <= k < |slots| && k != b ==> r[k] == slots[k]
  {
    (if b < |slots| then slots else slots + seq(b + 1 - |slots|, _ => 0))[b := peer]
  }

  function OnBlock(bs: Bans, peer: nat, block: Block): Bans
  {
    bs.(senders := bs.senders[block.piece := WithSlot(SlotsOf(bs, block.piece), block.offset / BLOCK_SIZE, peer)])
  }

  predicate SoleSender(slots: seq<nat>)
    requires slots != []
  {
    forall k :: 0 <= k < |slots| ==> slots[k] == slots[0]
  }

  function OnPieceFailed(bs: Bans, i: nat, data: Bytes): (Bans, seq<Host>)
  {
    var slots := SlotsOf(bs, i);
    if slots == [] then (bs, [])
    else
      var bs' := bs.(senders := bs.senders - {i});
      if SoleSender(slots) then
        (bs', if slots[0] in bs.hosts then [bs.hosts[slots[0]]] else [])
      else if i in bs.evidence then (bs', [])
      else (bs'.(evidence := bs.evidence[i := Evidence(data, slots)]), [])
  }

  // every slot of the evidence covers at least one byte of a piece this long
  ghost predicate EvidenceFits(ev: Evidence, data: Bytes)
  {
    && |ev.data| == |data|
    && (|ev.senders| - 1) * BLOCK_SIZE < |data|
  }

  function Chunk(data: Bytes, b: nat): Bytes
    requires b * BLOCK_SIZE <= |data|
  {
    data[b * BLOCK_SIZE..b * BLOCK_SIZE + Min(BLOCK_SIZE, |data| - b * BLOCK_SIZE)]
  }

  predicate Mismatch(ev: Evidence, data: Bytes, b: nat)
    requires EvidenceFits(ev, data) && b < |ev.senders|
  {
    Chunk(ev.data, b) != Chunk(data, b)
  }

  // the hosts behind the mismatching ones among the first n blocks, in order of appearance
  function Blamed(hosts: map<nat, Host>, ev: Evidence, data: Bytes, n: nat): seq<Host>
    requires EvidenceFits(ev, data) && n <= |ev.senders|
  {
    if n == 0 then []
    else
      var rest := Blamed(hosts, ev, data, n - 1);
      var p := ev.senders[n - 1];
      if !Mismatch(ev, data, n - 1) || p !in hosts || hosts[p] in rest then rest
      else rest + [hosts[p]]
  }

  function OnPieceVerified(bs: Bans, i: nat, data: Bytes): (Bans, seq<Host>)
    requires i in bs.evidence ==> EvidenceFits(bs.evidence[i], data)
  {
    var bs' := bs.(senders := bs.senders - {i});
    if i !in bs.evidence then (bs', [])
    else (bs'.(evidence := bs.evidence - {i}),
          Blamed(bs.hosts, bs.evidence[i], data, |bs.evidence[i].senders|))
  }

  ghost predicate Distinct<T>(s: seq<T>)
  {
    forall j, k :: 0 <= j < k < |s| ==> s[j] != s[k]
  }

  // The verdict names the known hosts of the mismatching blocks: all of them,
  // nobody else, and each once.
  lemma {:induction false} BlamedExactly(hosts: map<nat, Host>, ev: Evidence, data: Bytes, n: nat)
    requires EvidenceFits(ev, data) && n <= |ev.senders|
    ensures Distinct(Blamed(hosts, ev, data, n))
    ensures forall h :: h in Blamed(hosts, ev, data, n) <==>
              exists b :: 0 <= b < n && Mismatch(ev, data, b) && ev.senders[b] in hosts && hosts[ev.senders[b]] == h
  {
    if n == 0 {
    } else {
      BlamedExactly(hosts, ev, data, n - 1);
      var all, rest := Blamed(hosts, ev, data, n), Blamed(hosts, ev, data, n - 1);
      forall h ensures h in all <==>
          exists b :: 0 <= b < n && Mismatch(ev, data, b) && ev.senders[b] in hosts && hosts[ev.senders[b]] == h
      {
        if h in all && h !in rest {
          assert hosts[ev.senders[n - 1]] == h;
        }
        if h in rest {
          var b :| 0 <= b < n - 1 && Mismatch(ev, data, b) && ev.senders[b] in hosts && hosts[ev.senders[b]] == h;
          assert 0 <= b < n && Mismatch(ev, data, b);
        }
      }
    }
  }

  // A failed and a passing copy of the same piece differ, so if every block has
  // a known sender the verdict names somebody.
  lemma FailedCopyIsBlamed(t: Torrent, hosts: map<nat, Host>, ev: Evidence, i: nat, data: Bytes)
    requires t.Valid() && i < t.Count() && |ev.data| == |data| == t.Size(i)
    requires |ev.senders| == t.Blocks(i)
    requires forall b :: 0 <= b < |ev.senders| ==> ev.senders[b] in hosts
    requires !t.Verify(i, ev.data) && t.Verify(i, data)
    ensures EvidenceFits(ev, data)
    ensures Blamed(hosts, ev, data, |ev.senders|) != []
  {
    var b := t.DifferInBlock(i, ev.data, data);
    assert t.Slice(i, b, ev.data) == Chunk(ev.data, b) && t.Slice(i, b, data) == Chunk(data, b);
    BlamedExactly(hosts, ev, data, |ev.senders|);
    assert Mismatch(ev, data, b);
    assert hosts[ev.senders[b]] in Blamed(hosts, ev, data, |ev.senders|);
  }
}
