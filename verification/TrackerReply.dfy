// Announce replies of a UDP tracker (src/runtime/managers/tracker_manager.cpp:
// parse_announce_reply; "IPv4 announce response" of BEP 15).
module TrackerReplies {
  import opened Types
  import opened Wire

  // the address is kept as its four bytes
  datatype PeerAddr = PeerAddr(ip: Bytes, port: nat)

  datatype Reply =
    | Ignored
    | Refused(text: Bytes)
    | Granted(interval: nat, leechers: nat, seeders: nat, peers: seq<PeerAddr>)

  function ReadBe16(b: Bytes): (n: nat)
    requires |b| >= 2
    ensures n < 0x1_0000
  {
    var b0: int, b1: int := b[0], b[1];
    b0 * 256 + b1
  }

  // six bytes a peer; port 0 is garbage, and so is a short tail
  function Listed(body: Bytes): seq<PeerAddr>
  {
    if |body| < 6 then []
    else (if ReadBe16(body[4..]) == 0 then [] else [PeerAddr(body[..4], ReadBe16(body[4..]))]) + Listed(body[6..])
  }

  function ReplyOf(buf: Bytes, txn: nat): Reply
  {
    if |buf| < 8 || ReadBe32(buf[4..]) != txn then Ignored
    else if ReadBe32(buf) == 3 then Refused(buf[8..])
    else if ReadBe32(buf) != 1 || |buf| < 20 then Ignored
    else Granted(ReadBe32(buf[8..]), ReadBe32(buf[12..]), ReadBe32(buf[16..]), Listed(buf[20..]))
  }

  method ParseAnnounceReply(buf: Bytes, txn: nat) returns (r: Reply)
    ensures r == ReplyOf(buf, txn)
  {
    hide ReadBe32, ReadBe16;
    if |buf| < 8 { return Ignored; }
    var action := ReadBe32(buf);
    if ReadBe32(buf[4..]) != txn { return Ignored; }
    if action == 3 { return Refused(buf[8..]); }
    if action != 1 || |buf| < 20 { return Ignored; }
    var peers, off := [], 20;
    while off + 6 <= |buf|
      invariant 20 <= off <= |buf|
      invariant peers + Listed(buf[off..]) == Listed(buf[20..])
    {
      var port := ReadBe16(buf[off + 4..]);
      assert buf[off..][4..] == buf[off + 4..] && buf[off..][6..] == buf[off + 6..];
      if port != 0 {
        assert buf[off..][..4] == buf[off..off + 4];
        peers := peers + [PeerAddr(buf[off..off + 4], port)];
      }
      off := off + 6;
    }
    return Granted(ReadBe32(buf[8..]), ReadBe32(buf[12..]), ReadBe32(buf[16..]), peers);
  }

  // ----- the reply format, from the tracker's side -----

  ghost predicate IsAddr(p: PeerAddr)
  {
    |p.ip| == 4 && p.port < 0x1_0000
  }

  function EncodeAddr(p: PeerAddr): (b: Bytes)
    requires IsAddr(p)
    ensures |b| == 6
  {
    p.ip + [p.port / 256, p.port % 256]
  }

  function EncodeAddrs(peers: seq<PeerAddr>): Bytes
    requires forall p :: p in peers ==> IsAddr(p)
  {
    if peers == [] then [] else EncodeAddr(peers[0]) + EncodeAddrs(peers[1..])
  }

  function EncodeReply(txn: nat, interval: nat, leechers: nat, seeders: nat, peers: seq<PeerAddr>, tail: Bytes): Bytes
    requires forall p :: p in peers ==> IsAddr(p)
  {
    Be32(1) + (Be32(txn) + (Be32(interval) + (Be32(leechers) + (Be32(seeders) + (EncodeAddrs(peers) + tail)))))
  }

  // the peers one can dial
  function Dialable(peers: seq<PeerAddr>): seq<PeerAddr>
  {
    if peers == [] then [] else (if peers[0].port == 0 then [] else [peers[0]]) + Dialable(peers[1..])
  }

  lemma OneAddr(p: PeerAddr, rest: Bytes)
    requires IsAddr(p)
    ensures var b := EncodeAddr(p) + rest; b[6..] == rest && b[..4] == p.ip && ReadBe16(b[4..]) == p.port
  {
    var b := EncodeAddr(p) + rest;
    assert b[4..][0] == p.port / 256 && b[4..][1] == p.port % 256;
  }

  lemma {:induction false} ListedAddrs(peers: seq<PeerAddr>, tail: Bytes)
    requires (forall p :: p in peers ==> IsAddr(p)) && |tail| < 6
    ensures Listed(EncodeAddrs(peers) + tail) == Dialable(peers)
    decreases |peers|
  {
    if peers == [] {
      assert EncodeAddrs(peers) + tail == tail;
    } else {
      assert IsAddr(peers[0]);
      var rest := EncodeAddrs(peers[1..]) + tail;
      assert EncodeAddrs(peers) + tail == EncodeAddr(peers[0]) + rest;
      OneAddr(peers[0], rest);
      ListedAddrs(peers[1..], tail);
    }
  }

  lemma Field(n: nat, rest: Bytes)
    requires n < TWO_32
    ensures ReadBe32(Be32(n) + rest) == n && (Be32(n) + rest)[4..] == rest
  {
    Be32RoundTrip(n, rest);
  }

  // A well-formed reply to this transaction is read back in full, whatever
  // unusable entries or short tail it carries; any other transaction ignores it.
  lemma ReplyRoundTrip(txn: nat, expected: nat, interval: nat, leechers: nat, seeders: nat, peers: seq<PeerAddr>,
                       tail: Bytes)
    requires txn < TWO_32 && interval < TWO_32 && leechers < TWO_32 && seeders < TWO_32
    requires (forall p :: p in peers ==> IsAddr(p)) && |tail| < 6
    ensures ReplyOf(EncodeReply(txn, interval, leechers, seeders, peers, tail), expected) ==
            if expected == txn then Granted(interval, leechers, seeders, Dialable(peers)) else Ignored
  {
    var b20 := EncodeAddrs(peers) + tail;
    var b16 := Be32(seeders) + b20;
    var b12 := Be32(leechers) + b16;
    var b8 := Be32(interval) + b12;
    var b4 := Be32(txn) + b8;
    var buf := Be32(1) + b4;
    Field(1, b4);
    Field(txn, b8);
    Field(interval, b12);
    Field(leechers, b16);
    Field(seeders, b20);
    ListedAddrs(peers, tail);
    Drop4(buf, 4);
    Drop4(buf, 8);
    Drop4(buf, 12);
    Drop4(buf, 16);
  }

  lemma Drop4(b: Bytes, k: nat)
    requires k + 4 <= |b|
    ensures b[k..][4..] == b[k + 4..]
  {
  }
}
