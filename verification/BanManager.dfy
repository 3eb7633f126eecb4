// BanManager (src/runtime/managers/ban_manager.cpp), updating its tables in place.
module BanManagers {
  import opened Types
  import opened B = Bans

  class BanManager {
    var hosts: map<nat, Host>
    var senders: map<nat, seq<nat>>
    var evidence: map<nat, Evidence>

    ghost function Value(): B.Bans
      reads this
    {
      B.Bans(hosts, senders, evidence)
    }

    constructor ()
      ensures Value() == B.Bans(map[], map[], map[])
    {
      hosts, senders, evidence := map[], map[], map[];
    }

    method OnJoin(peer: nat, host: Host)
      modifies this
      ensures Value() == B.OnJoin(old(Value()), peer, host)
    {
      hosts := hosts[peer := host];
    }

    method OnBlock(peer: nat, block: Block)
      modifies this
      ensures Value() == B.OnBlock(old(Value()), peer, block)
    {
      var slots := if block.piece in senders then senders[block.piece] else [];
      var b := block.offset / BLOCK_SIZE;
      if b >= |slots| {
        slots := slots + seq(b + 1 - |slots|, _ => 0);
      }
      slots := slots[b := peer];
      senders := senders[block.piece := slots];
    }

    method OnPieceFailed(index: nat, data: Bytes) returns (bans: seq<Host>)
      modifies this
      ensures (Value(), bans) == B.OnPieceFailed(old(Value()), index, data)
    {
      if index !in senders || senders[index] == [] { return []; }
      var slots := senders[index];
      senders := senders - {index};

      var sole := true;
      var k := 0;
      while k < |slots| && sole
        invariant 0 <= k <= |slots|
        invariant sole <==> forall j :: 0 <= j < k ==> slots[j] == slots[0]
      {
        sole := slots[k] == slots[0];
        k := k + 1;
      }
      if sole {
        return if slots[0] in hosts then [hosts[slots[0]]] else [];
      }
      if index !in evidence {
        evidence := evidence[index := Evidence(data, slots)];
      }
      return [];
    }

    // the source asserts that evidence and piece are equally long
    method OnPieceVerified(index: nat, data: Bytes) returns (bans: seq<Host>)
      requires index in evidence ==> EvidenceFits(evidence[index], data)
      modifies this
      ensures (Value(), bans) == B.OnPieceVerified(old(Value()), index, data)
    {
      senders := senders - {index};
      if index !in evidence { return []; }
      var ev := evidence[index];

      bans := [];
      var b := 0;
      while b < |ev.senders|
        invariant 0 <= b <= |ev.senders|
        invariant bans == Blamed(hosts, ev, data, b)
        invariant hosts == old(hosts) && evidence == old(evidence) && senders == old(senders) - {index}
      {
        if Mismatch(ev, data, b) && ev.senders[b] in hosts {
          var h := hosts[ev.senders[b]];
          if h !in bans {
            bans := bans + [h];
          }
        }
        b := b + 1;
      }
      evidence := evidence - {index};
    }
  }
}
