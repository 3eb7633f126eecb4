// Piece geometry of an accepted torrent, as every runtime manager uses it
// (src/metainfo/torrent.cpp: piece_size; piece_manager.cpp: verify, activate).
module Torrents {
  import opened Types

  const PIECE_LENGTH_CAP: nat := 64 * 1024 * 1024

  // 'sha1' stands for the digest function: nothing is assumed about it.
  datatype Torrent = Torrent(totalLength: nat, pieceLength: nat, hashes: seq<Bytes>, sha1: Bytes -> Bytes) {

    // what parse_torrent guarantees: Metainfo.AcceptedIsValid
    ghost predicate Valid() {
      && 0 < pieceLength <= PIECE_LENGTH_CAP
      && |hashes| < TWO_32
      && totalLength <= |hashes| * pieceLength
      && (|hashes| > 0 ==> (|hashes| - 1) * pieceLength < totalLength)
    }

    function Count(): nat {
      |hashes|
    }

    function Offset(i: nat): nat {
      i * pieceLength
    }

    function Size(i: nat): (n: nat)
      requires Valid() && i < Count()
      ensures 1 <= n <= pieceLength
      ensures Offset(i) + n <= totalLength
      ensures Offset(i) + n == if i + 1 < Count() then Offset(i + 1) else totalLength
    {
      OffsetOrder(i, Count() - 1);
      if i == Count() - 1 then totalLength - i * pieceLength else pieceLength
    }

    function Blocks(i: nat): (n: nat)
      requires Valid() && i < Count()
      ensures 1 <= n
      ensures (n - 1) * BLOCK_SIZE < Size(i) <= n * BLOCK_SIZE
    {
      (Size(i) + BLOCK_SIZE - 1) / BLOCK_SIZE
    }

    function BlockLength(i: nat, b: nat): (n: nat)
      requires Valid() && i < Count() && b < Blocks(i)
      ensures 1 <= n <= BLOCK_SIZE
      ensures b * BLOCK_SIZE + n <= Size(i)
      ensures b + 1 < Blocks(i) ==> n == BLOCK_SIZE
      ensures b + 1 == Blocks(i) ==> b * BLOCK_SIZE + n == Size(i)
    {
      Min(BLOCK_SIZE, Size(i) - b * BLOCK_SIZE)
    }

    function Request(i: nat, b: nat): BlockRequest
      requires Valid() && i < Count() && b < Blocks(i)
    {
      BlockRequest(i, b * BLOCK_SIZE, BlockLength(i, b))
    }

    // block b of a whole piece
    function Slice(i: nat, b: nat, data: Bytes): (s: Bytes)
      requires Valid() && i < Count() && b < Blocks(i) && |data| == Size(i)
      ensures |s| == BlockLength(i, b)
    {
      data[b * BLOCK_SIZE..b * BLOCK_SIZE + BlockLength(i, b)]
    }

    // the piece's bytes within the whole content
    function PieceOf(content: Bytes, i: nat): (s: Bytes)
      requires Valid() && i < Count() && |content| == totalLength
      ensures |s| == Size(i)
    {
      var from, n := Offset(i), Size(i);
      content[from..from + n]
    }

    predicate Verify(i: nat, data: Bytes)
      requires i < Count()
    {
      |hashes[i]| == 20 && sha1(data) == hashes[i]
    }

    lemma {:induction false} OffsetOrder(i: nat, j: nat)
      requires i <= j
      ensures Offset(i) <= Offset(j)
      ensures i < j ==> Offset(i) + pieceLength <= Offset(j)
      decreases j - i
    {
      if i < j {
        OffsetOrder(i + 1, j);
        assert Offset(i + 1) == Offset(i) + pieceLength;
      }
    }

    // Overwriting one piece leaves every other piece as it was.
    lemma WriteElsewhere(content: Bytes, i: nat, data: Bytes, j: nat)
      requires Valid() && i < Count() && j < Count() && |content| == totalLength && |data| == Size(i)
      ensures j != i ==> PieceOf(Splice(content, Offset(i), data), j) == PieceOf(content, j)
      ensures j == i ==> PieceOf(Splice(content, Offset(i), data), j) == data
    {
      if j < i {
        OffsetOrder(j + 1, i);
      } else if i < j {
        OffsetOrder(i + 1, j);
      }
    }

    // Two equally long pieces that differ, differ in some block.
    lemma DifferInBlock(i: nat, x: Bytes, y: Bytes) returns (b: nat)
      requires Valid() && i < Count() && |x| == |y| == Size(i) && x != y
      ensures b < Blocks(i) && Slice(i, b, x) != Slice(i, b, y)
    {
      var k :| 0 <= k < |x| && x[k] != y[k];
      b := k / BLOCK_SIZE;
      assert Slice(i, b, x)[k - b * BLOCK_SIZE] == x[k];
      assert Slice(i, b, y)[k - b * BLOCK_SIZE] == y[k];
    }
  }
}
