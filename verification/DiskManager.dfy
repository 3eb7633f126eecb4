// DiskManager (src/runtime/managers/disk_manager.cpp): many files standing in
// for one flat byte array. Opening, allocating and the retry loops around
// pread and pwrite are not modelled: a file is the bytes below its length.
module DiskManagers {
  import opened Types
  import opened Torrents
  import opened Wire

  datatype FileEntry = FileEntry(offset: nat, length: nat)

  function Sum(lengths: seq<nat>): nat
  {
    if lengths == [] then 0 else Sum(lengths[..|lengths| - 1]) + lengths[|lengths| - 1]
  }

  function End(files: seq<FileEntry>): nat
  {
    if files == [] then 0 else files[|files| - 1].offset + files[|files| - 1].length
  }

  // non-empty files, one directly after the other, from 0 up to total
  ghost predicate Tiles(files: seq<FileEntry>, total: nat)
  {
    && (forall k :: 0 <= k < |files| ==> files[k].length > 0)
    && (forall k :: 0 <= k < |files| ==> files[k].offset == End(files[..k]))
    && End(files) == total
  }

  // ----- the layout -----

  lemma TilesAppend(files: seq<FileEntry>, total: nat, length: nat)
    requires Tiles(files, total) && length > 0
    ensures Tiles(files + [FileEntry(total, length)], total + length)
  {
    var more := files + [FileEntry(total, length)];
    forall k | 0 <= k < |more| ensures more[k].offset == End(more[..k]) {
      assert more[..k] == files[..k];
      if k == |files| { assert files[..k] == files; }
    }
  }

  // the constructor's loop over the torrent's files; false stands for the
  // exception when the lengths do not add up
  method BuildLayout(lengths: seq<nat>, total: nat) returns (files: seq<FileEntry>, ok: bool)
    ensures ok <==> Sum(lengths) == total
    ensures Tiles(files, Sum(lengths))
    ensures |files| <= |lengths|
    ensures (forall k :: 0 <= k < |lengths| ==> lengths[k] > 0) ==> |files| == |lengths|
  {
    files := [];
    var cursor, k := 0, 0;
    while k < |lengths|
      invariant 0 <= k <= |lengths| && cursor == Sum(lengths[..k]) && |files| <= k
      invariant Tiles(files, cursor)
      invariant (forall j :: 0 <= j < k ==> lengths[j] > 0) ==> |files| == k
    {
      var length := lengths[k];
      assert lengths[..k + 1][..k] == lengths[..k];
      if length > 0 {
        TilesAppend(files, cursor, length);
        files := files + [FileEntry(cursor, length)];
      }
      cursor := cursor + length;
      k := k + 1;
    }
    assert lengths[..k] == lengths;
    ok := cursor == total;
  }

  lemma {:induction false} OffsetsGrow(files: seq<FileEntry>, total: nat, j: nat, k: nat)
    requires Tiles(files, total) && j < k <= |files|
    ensures files[j].offset + files[j].length <= (if k < |files| then files[k].offset else total)
    ensures files[j].offset + files[j].length == End(files[..j + 1])
    decreases k - j
  {
    assert files[..j + 1][j] == files[j];
    if k == j + 1 {
      if k == |files| { assert files[..k] == files; }
    } else {
      OffsetsGrow(files, total, j, k - 1);
      assert files[..k][k - 1] == files[k - 1];
      if k == |files| { assert files[..k] == files; }
    }
  }

  // ----- files as one array -----

  ghost predicate Holds(files: seq<FileEntry>, contents: seq<Bytes>)
  {
    |contents| == |files| && forall k :: 0 <= k < |files| ==> |contents[k]| == files[k].length
  }

  lemma {:induction false} JoinSplit(contents: seq<Bytes>, k: nat)
    requires k <= |contents|
    ensures Join(contents) == Join(contents[..k]) + Join(contents[k..])
  {
    if k == 0 {
      assert contents[0..] == contents;
      assert [] + Join(contents) == Join(contents);
    } else {
      JoinSplit(contents[1..], k - 1);
      assert contents[1..][..k - 1] == contents[..k][1..];
      assert contents[1..][k - 1..] == contents[k..];
      assert contents[0] + (Join(contents[..k][1..]) + Join(contents[k..])) ==
          contents[0] + Join(contents[..k][1..]) + Join(contents[k..]);
    }
  }

  lemma {:induction false} JoinLength(files: seq<FileEntry>, total: nat, contents: seq<Bytes>, k: nat)
    requires Tiles(files, total) && Holds(files, contents) && k <= |files|
    ensures |Join(contents[..k])| == End(files[..k])
  {
    if k == 0 {
    } else {
      JoinLength(files, total, contents, k - 1);
      JoinSplit(contents[..k], k - 1);
      assert contents[..k][..k - 1] == contents[..k - 1] && contents[..k][k - 1..] == [contents[k - 1]];
      assert Join([contents[k - 1]]) == contents[k - 1] + [];
      assert files[..k][k - 1] == files[k - 1];
    }
  }

  // file k sits between the files before and after it
  lemma Around(files: seq<FileEntry>, total: nat, contents: seq<Bytes>, k: nat) returns (pre: Bytes, post: Bytes)
    requires Tiles(files, total) && Holds(files, contents) && k < |files|
    ensures |pre| == files[k].offset && |Join(contents)| == total
    ensures Join(contents) == pre + contents[k] + post
    ensures forall c :: Join(contents[k := c]) == pre + c + post
  {
    pre, post := Join(contents[..k]), Join(contents[k + 1..]);
    forall c ensures Join(contents[k := c]) == pre + c + post {
      JoinAt(contents[k := c], k);
      assert contents[k := c][..k] == contents[..k] && contents[k := c][k + 1..] == contents[k + 1..];
    }
    assert contents[k := contents[k]] == contents;
    JoinLength(files, total, contents, k);
    JoinLength(files, total, contents, |files|);
    assert contents[..|files|] == contents && files[..|files|] == files;
  }

  lemma JoinAt(contents: seq<Bytes>, k: nat)
    requires k < |contents|
    ensures Join(contents) == Join(contents[..k]) + contents[k] + Join(contents[k + 1..])
  {
    JoinSplit(contents, k);
    assert contents[k..][1..] == contents[k + 1..];
    assert Join(contents[..k]) + (contents[k] + Join(contents[k + 1..])) ==
        Join(contents[..k]) + contents[k] + Join(contents[k + 1..]);
  }

  lemma SpliceInside(flat: Bytes, flat': Bytes, pre: Bytes, mid: Bytes, post: Bytes, at: nat, data: Bytes)
    requires at + |data| <= |mid| && flat == pre + mid + post && flat' == pre + Splice(mid, at, data) + post
    ensures |pre| + at + |data| <= |flat| && flat' == Splice(flat, |pre| + at, data)
  {
  }

  // Writing inside one file is writing at that place of the flat array.
  lemma WriteFile(files: seq<FileEntry>, total: nat, contents: seq<Bytes>, k: nat, at: nat, data: Bytes)
    requires Tiles(files, total) && Holds(files, contents) && k < |files| && at + |data| <= files[k].length
    ensures |Join(contents)| == total && files[k].offset + at + |data| <= total && |contents| == |files|
    ensures at + |data| <= |contents[k]| && Holds(files, contents[k := Splice(contents[k], at, data)])
    ensures Join(contents[k := Splice(contents[k], at, data)]) == Splice(Join(contents), files[k].offset + at, data)
  {
    hide Join, Tiles, Splice;
    var pre, post := Around(files, total, contents, k);
    SpliceInside(Join(contents), Join(contents[k := Splice(contents[k], at, data)]), pre, contents[k], post, at, data);
  }

  lemma ReadFile(files: seq<FileEntry>, total: nat, contents: seq<Bytes>, k: nat, at: nat, n: nat)
    requires Tiles(files, total) && Holds(files, contents) && k < |files| && at + n <= files[k].length
    ensures |Join(contents)| == total && files[k].offset + at + n <= total
    ensures contents[k][at..at + n] == Join(contents)[files[k].offset + at..files[k].offset + at + n]
  {
    var pre, post := Around(files, total, contents, k);
  }

  lemma SpliceMore(s: Bytes, at: nat, data: Bytes, done: nat, n: nat)
    requires done + n <= |data| && at + |data| <= |s|
    ensures Splice(Splice(s, at, data[..done]), at + done, data[done..done + n]) == Splice(s, at, data[..done + n])
  {
  }

  class DiskManager {
    const torrent: Torrent
    const files: seq<FileEntry>
    var contents: seq<Bytes>

    ghost predicate Valid()
      reads this
    {
      torrent.Valid() && Tiles(files, torrent.totalLength) && Holds(files, contents)
    }

    // what the files amount to
    ghost function Flat(): (bytes: Bytes)
      reads this
      requires Valid()
      ensures |bytes| == torrent.totalLength
    {
      JoinLength(files, torrent.totalLength, contents, |files|);
      assert contents[..|files|] == contents && files[..|files|] == files;
      Join(contents)
    }

    constructor (torrent: Torrent, files: seq<FileEntry>, contents: seq<Bytes>)
      requires torrent.Valid() && Tiles(files, torrent.totalLength) && Holds(files, contents)
      ensures Valid() && this.torrent == torrent && this.files == files && this.contents == contents
    {
      this.torrent, this.files, this.contents := torrent, files, contents;
    }

    // the last file that starts at or before the offset, by binary search;
    // None stands for the out_of_range exception
    method Locate(offset: nat) returns (r: Option<nat>)
      requires Valid()
      ensures r.None? ==> forall k :: 0 <= k < |files| ==> offset < files[k].offset
      ensures r.Some? ==> r.value < |files| && files[r.value].offset <= offset
      ensures r.Some? && offset < torrent.totalLength ==> offset < files[r.value].offset + files[r.value].length
      ensures offset < torrent.totalLength ==> r.Some?
    {
      var lo, hi := 0, |files|;
      while lo < hi
        invariant 0 <= lo <= hi <= |files|
        invariant forall k :: 0 <= k < lo ==> files[k].offset <= offset
        invariant forall k :: hi <= k < |files| ==> offset < files[k].offset
      {
        var mid := (lo + hi) / 2;
        if offset < files[mid].offset {
          forall k | mid <= k < |files| ensures offset < files[k].offset {
            if mid < k { OffsetsGrow(files, torrent.totalLength, mid, k); }
          }
          hi := mid;
        } else {
          forall k | 0 <= k <= mid ensures files[k].offset <= offset {
            if k < mid { OffsetsGrow(files, torrent.totalLength, k, mid); }
          }
          lo := mid + 1;
        }
      }
      if files != [] { assert files[..0] == []; assert files[0].offset == 0; }
      if lo == 0 { return None; }
      OffsetsGrow(files, torrent.totalLength, lo - 1, lo);
      assert files[..lo][lo - 1] == files[lo - 1];
      return Some(lo - 1);
    }

    // position 'at' lies in file k, or everything is done
    ghost predicate Inside(k: nat, at: nat, stop: nat)
    {
      at < stop ==> k < |files| && files[k].offset <= at < files[k].offset + files[k].length
    }

    // from the end of one file the next position is the start of the next file
    lemma NextFile(k: nat, at: nat, stop: nat)
      requires Tiles(files, torrent.totalLength) && k < |files| && stop <= torrent.totalLength
      requires files[k].offset <= at < stop && at < files[k].offset + files[k].length
      ensures var n := Min(stop - at, files[k].offset + files[k].length - at);
              n > 0 && at + n <= stop && Inside(k + 1, at + n, stop)
    {
      OffsetsGrow(files, torrent.totalLength, k, k + 1);
      assert files[..k + 1][k] == files[k];
      if k + 1 == |files| { assert files[..k + 1] == files; }
    }

    // pwrite_all on file k
    method WriteSlice(k: nat, at: nat, data: Bytes)
      requires Valid() && k < |files| && at + |data| <= files[k].length
      modifies this`contents
      ensures Valid() && files[k].offset + at + |data| <= torrent.totalLength
      ensures Flat() == Splice(old(Flat()), files[k].offset + at, data)
    {
      hide Tiles, Join, Holds, Splice;
      WriteFile(files, torrent.totalLength, contents, k, at, data);
      contents := contents[k := Splice(contents[k], at, data)];
    }

    // pread_all on file k
    method ReadSlice(k: nat, at: nat, n: nat) returns (out: Bytes)
      requires Valid() && k < |files| && at + n <= files[k].length
      ensures files[k].offset + at + n <= torrent.totalLength
      ensures out == Flat()[files[k].offset + at..files[k].offset + at + n]
    {
      ReadFile(files, torrent.totalLength, contents, k, at, n);
      out := contents[k][at..at + n];
    }

    // write_piece: false stands for an out_of_range exception
    method WritePiece(index: nat, data: Bytes) returns (ok: bool)
      requires Valid()
      modifies this`contents
      ensures Valid()
      ensures ok <==> index < torrent.Count() && (data == [] || torrent.Offset(index) + |data| <= torrent.totalLength)
      ensures Flat() == if ok && data != [] then Splice(old(Flat()), torrent.Offset(index), data) else old(Flat())
    {
      hide Tiles, Join, Holds;
      if index >= torrent.Count() { return false; }
      var start := torrent.Offset(index);
      if |data| == 0 { return true; }
      if start + |data| > torrent.totalLength { return false; }
      ghost var flat := Flat();
      var first := Locate(start);
      var k: nat, done: nat := first.value, 0;
      while done < |data|
        invariant Valid() && done <= |data|
        invariant Inside(k, start + done, start + |data|)
        invariant Flat() == Splice(flat, start, data[..done])
      {
        NextFile(k, start + done, start + |data|);
        var at: nat := start + done - files[k].offset;
        var n: nat := Min(|data| - done, files[k].length - at);
        SpliceMore(flat, start, data, done, n);
        WriteSlice(k, at, data[done..done + n]);
        done := done + n;
        k := k + 1;
      }
      assert data[..done] == data;
      return true;
    }

    // read_block: None stands for an out_of_range exception
    method ReadBlock(index: nat, offset: nat, length: nat) returns (r: Option<Bytes>)
      requires Valid()
      ensures r.Some? <==> index < torrent.Count() && offset + length <= torrent.Size(index)
      ensures r.Some? ==> r.value == torrent.PieceOf(Flat(), index)[offset..offset + length]
    {
      if index >= torrent.Count() { return None; }
      if offset + length > torrent.Size(index) { return None; }
      var start := torrent.Offset(index) + offset;
      var out := ReadRange(start, length);
      SubSlice(Flat(), torrent.Offset(index), torrent.Size(index), offset, length);
      return Some(out);
    }

    // for_each_slice, reading
    method ReadRange(start: nat, length: nat) returns (out: Bytes)
      requires Valid() && start + length <= torrent.totalLength
      ensures out == Flat()[start..start + length]
    {
      hide Tiles, Join, Holds;
      out := [];
      if length == 0 { return; }
      var first := Locate(start);
      var k: nat, done: nat := first.value, 0;
      while done < length
        invariant done <= length
        invariant Inside(k, start + done, start + length)
        invariant out == Flat()[start..start + done]
      {
        NextFile(k, start + done, start + length);
        var at: nat := start + done - files[k].offset;
        var n: nat := Min(length - done, files[k].length - at);
        var part := ReadSlice(k, at, n);
        SliceMore(Flat(), start, done, n);
        out := out + part;
        done := done + n;
        k := k + 1;
      }
    }
  }

  lemma SubSlice(s: Bytes, at: nat, n: nat, offset: nat, length: nat)
    requires at + n <= |s| && offset + length <= n
    ensures s[at..at + n][offset..offset + length] == s[at + offset..at + offset + length]
  {
    var a, b := s[at..at + n][offset..offset + length], s[at + offset..at + offset + length];
    assert forall k :: 0 <= k < length ==> a[k] == b[k];
  }

  lemma SliceMore(s: Bytes, start: nat, done: nat, n: nat)
    requires start + done + n <= |s|
    ensures s[start..start + done] + s[start + done..start + done + n] == s[start..start + done + n]
  {
  }
}
