// Records shared by every manager (src/core/types.hpp).
module Types {

  // requests never ask for more than this many bytes
  const BLOCK_SIZE: nat := 16384

  const TWO_32: nat := 0x1_0000_0000
  const TWO_64: nat := 0x1_0000_0000_0000_0000

  type Byte = b: int | 0 <= b < 256
  type Bytes = seq<Byte>

  // an IP address in text form; bans are per host
  type Host = string

  datatype Option<+T> = None | Some(value: T)

  datatype BlockRequest = BlockRequest(piece: nat, offset: nat, length: nat)

  datatype Block = Block(piece: nat, offset: nat, data: Bytes)

  datatype PendingRequest = PendingRequest(req: BlockRequest, sentAt: int)

  function Min(a: int, b: int): (m: int)
  {
    if a <= b then a else b
  }

  // s with the bytes from 'at' on overwritten by 'data'
  function Splice(s: Bytes, at: nat, data: Bytes): (r: Bytes)
    requires at + |data| <= |s|
    ensures |r| == |s|
    ensures r[at..at + |data|] == data
    ensures forall k :: 0 <= k < at || at + |data| <= k < |s| ==> r[k] == s[k]
  {
    s[..at] + data + s[at + |data|..]
  }

  function RequestsOf(pending: seq<PendingRequest>): (reqs: seq<BlockRequest>)
    ensures |reqs| == |pending|
    ensures forall k :: 0 <= k < |pending| ==> reqs[k] == pending[k].req
  {
    seq(|pending|, k requires 0 <= k < |pending| => pending[k].req)
  }

  // s without its element at k
  function Without<T>(s: seq<T>, k: nat): (r: seq<T>)
    requires k < |s|
    ensures |r| == |s| - 1
  {
    s[..k] + s[k + 1..]
  }
}
