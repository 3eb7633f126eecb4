// The checks of parse_torrent on the fields of the info dictionary
// (src/metainfo/torrent.cpp). Throwing is None or false here.
module Metainfo {
  import opened Types
  import opened Torrents
  import opened Paths
  import D = DiskManagers

  const LIMIT: nat := 0x7FFF_FFFF_FFFF_FFFF
  const HASH_SIZE: nat := 20

  datatype FileInfo = FileInfo(length: int, path: Path)

  // the typed fields of the info dictionary
  datatype Info = Info(name: Bytes, pieceLength: int, pieces: Bytes, length: Option<int>, files: Option<seq<FileInfo>>)

  // integers come out of the parser with 64 bits, and a string or list has fewer than 2^64 elements
  ghost predicate Typed(info: Info)
  {
    && IsInt64(info.pieceLength) && |info.pieces| < TWO_64
    && (info.length.Some? ==> IsInt64(info.length.value))
    && (info.files.Some? ==> forall f :: f in info.files.value ==> IsInt64(f.length))
  }

  predicate IsInt64(n: int)
  {
    -0x8000_0000_0000_0000 <= n < 0x8000_0000_0000_0000
  }

  // ----- what is accepted -----

  function PathsOf(files: seq<FileInfo>): (paths: seq<Path>)
    ensures |paths| == |files|
    ensures forall k :: 0 <= k < |files| ==> paths[k] == files[k].path
  {
    seq(|files|, k requires 0 <= k < |files| => files[k].path)
  }

  ghost predicate FileOk(f: FileInfo)
  {
    f.length >= 0 && f.path != [] && forall c :: c in f.path ==> SafeComponent(c)
  }

  ghost predicate LayoutOk(info: Info)
  {
    && info.length.Some? != info.files.Some?
    && (info.length.Some? ==> info.length.value >= 0)
    && SafeComponent(info.name)
    && (info.files.Some? ==> (forall f :: f in info.files.value ==> FileOk(f)) && ClashFree(PathsOf(info.files.value)))
  }

  // the length of every file, in order
  function Lengths(info: Info): (lengths: seq<nat>)
    requires LayoutOk(info)
  {
    if info.length.Some? then [info.length.value]
    else
      seq(|info.files.value|, k requires 0 <= k < |info.files.value| => Natural(info.files.value[k]))
  }

  function Natural(f: FileInfo): nat
    requires FileOk(f)
  {
    f.length
  }

  // count pieces of the given length cover the total, and one fewer would not
  ghost predicate Covers(count: nat, pieceLength: nat, total: nat)
  {
    total <= count * pieceLength && (count > 0 ==> (count - 1) * pieceLength < total)
  }

  ghost predicate Acceptable(info: Info)
  {
    && |info.pieces| % HASH_SIZE == 0
    && 0 < info.pieceLength <= PIECE_LENGTH_CAP
    && LayoutOk(info)
    && D.Sum(Lengths(info)) <= LIMIT
    && Covers(|info.pieces| / HASH_SIZE, info.pieceLength, D.Sum(Lengths(info)))
  }

  // ----- the checks -----

  method GeneratePieces(raw: Bytes) returns (r: Option<seq<Bytes>>)
    ensures r.Some? <==> |raw| % HASH_SIZE == 0
    ensures r.Some? ==> |r.value| * HASH_SIZE == |raw|
    ensures r.Some? ==> forall k :: 0 <= k < |r.value| ==> r.value[k] == raw[k * HASH_SIZE..(k + 1) * HASH_SIZE]
  {
    if |raw| % HASH_SIZE != 0 { return None; }
    var pieces, i := [], 0;
    while i < |raw|
      invariant i == |pieces| * HASH_SIZE && i <= |raw| && i % HASH_SIZE == 0
      invariant forall k :: 0 <= k < |pieces| ==> pieces[k] == raw[k * HASH_SIZE..(k + 1) * HASH_SIZE]
    {
      assert i + HASH_SIZE <= |raw|;
      pieces := pieces + [raw[i..i + HASH_SIZE]];
      i := i + HASH_SIZE;
    }
    return Some(pieces);
  }

  method CheckFiles(files: seq<FileInfo>) returns (ok: bool)
    ensures ok <==> forall f :: f in files ==> FileOk(f)
  {
    var k := 0;
    while k < |files|
      invariant 0 <= k <= |files| && forall j :: 0 <= j < k ==> FileOk(files[j])
    {
      assert files[k] in files;
      if files[k].length < 0 || files[k].path == [] { return false; }
      var path, n := files[k].path, 0;
      while n < |path|
        invariant 0 <= n <= |path| && forall j :: 0 <= j < n ==> SafeComponent(path[j])
      {
        if !SafeComponent(path[n]) {
          assert path[n] in path;
          return false;
        }
        n := n + 1;
      }
      k := k + 1;
    }
    return true;
  }

  // Sorting and comparing neighbours finds every clash.
  method CheckPaths(files: seq<FileInfo>) returns (ok: bool)
    ensures ok <==> ClashFree(PathsOf(files))
  {
    var sorted := SortPaths(PathsOf(files));
    NeighboursDecide(sorted);
    var i := 0;
    while i + 1 < |sorted|
      invariant 0 <= i && forall k :: 0 <= k < i && k < |sorted| - 1 ==> !(sorted[k] <= sorted[k + 1])
    {
      if sorted[i] <= sorted[i + 1] { return false; }
      i := i + 1;
    }
    return true;
  }

  method ValidateLayout(info: Info) returns (ok: bool)
    ensures ok <==> LayoutOk(info)
  {
    if info.length.Some? == info.files.Some? { return false; }
    if info.length.Some? && info.length.value < 0 { return false; }
    if !SafeComponent(info.name) { return false; }
    if info.files.None? { return true; }
    ok := CheckFiles(info.files.value);
    if ok {
      ok := CheckPaths(info.files.value);
    }
  }

  // unsigned 64-bit arithmetic
  function Wrap64(n: int): (w: nat)
    ensures 0 <= n < TWO_64 ==> w == n
  {
    n % 0x1_0000_0000_0000_0000
  }

  // unsigned 64-bit sums never wrap: each is checked before it is taken
  method CalculateTotalLength(info: Info) returns (r: Option<nat>)
    requires Typed(info) && LayoutOk(info)
    ensures r.Some? <==> D.Sum(Lengths(info)) <= LIMIT
    ensures r.Some? ==> r.value == D.Sum(Lengths(info))
  {
    hide Wrap64;
    ghost var lengths := Lengths(info);
    if info.length.Some? {
      assert lengths[..0] == [];
      return Some(info.length.value);
    }
    var files, total, k := info.files.value, 0, 0;
    while k < |files|
      invariant 0 <= k <= |files| && total == D.Sum(lengths[..k]) <= LIMIT
    {
      var length := files[k].length;
      assert lengths[..k + 1][..k] == lengths[..k] && length == lengths[k];
      assert files[k] in files;
      if Wrap64(length + total) > LIMIT {
        SumGrows(lengths, k + 1);
        return None;
      }
      total := Wrap64(total + length);
      k := k + 1;
    }
    assert lengths[..k] == lengths;
    return Some(total);
  }

  lemma {:induction false} SumGrows(lengths: seq<nat>, k: nat)
    requires k <= |lengths|
    ensures D.Sum(lengths[..k]) <= D.Sum(lengths)
    decreases |lengths|
  {
    if k == |lengths| {
      assert lengths[..k] == lengths;
    } else {
      SumGrows(lengths[..|lengths| - 1], k);
      assert lengths[..|lengths| - 1][..k] == lengths[..k];
    }
  }

  // Accepts exactly the acceptable; what it hands on is the geometry every manager relies on.
  method Accept(info: Info, sha1: Bytes -> Bytes) returns (r: Option<Torrent>)
    requires Typed(info)
    ensures r.Some? <==> Acceptable(info)
    ensures r.Some? ==> Describes(info, r.value) && r.value.sha1 == sha1
  {
    var pieces := GeneratePieces(info.pieces);
    if pieces.None? { return None; }
    if info.pieceLength <= 0 || info.pieceLength > PIECE_LENGTH_CAP { return None; }
    var ok := ValidateLayout(info);
    if !ok { return None; }
    var total := CalculateTotalLength(info);
    if total.None? { return None; }
    var pl := info.pieceLength;
    var expected := total.value / pl + (if total.value % pl != 0 then 1 else 0);
    CoversExactly(|pieces.value|, pl, total.value);
    if |pieces.value| != expected { return None; }
    return Some(Torrent(total.value, pl, pieces.value, sha1));
  }

  ghost predicate Describes(info: Info, t: Torrent)
    requires LayoutOk(info)
  {
    && t.totalLength == D.Sum(Lengths(info)) && t.pieceLength == info.pieceLength
    && |t.hashes| * HASH_SIZE == |info.pieces|
    && forall k :: 0 <= k < |t.hashes| ==> t.hashes[k] == info.pieces[k * HASH_SIZE..(k + 1) * HASH_SIZE]
  }

  lemma CoversExactly(count: nat, pl: nat, total: nat)
    requires pl > 0
    ensures Covers(count, pl, total) <==> count == total / pl + (if total % pl != 0 then 1 else 0)
  {
    var q, r := total / pl, total % pl;
    assert total == q * pl + r;
    if count <= q - 1 {
      Times(count, q - 1, pl);
      assert (q - 1) * pl == q * pl - pl;
    } else if count >= q + 2 {
      Times(q + 1, count - 1, pl);
      assert (q + 1) * pl == q * pl + pl;
    } else if count == q + 1 {
      assert count * pl == q * pl + pl;
    } else {
      assert count == q;
      assert (count - 1) * pl == q * pl - pl;
    }
  }

  lemma Times(a: int, b: int, n: nat)
    requires a <= b
    ensures a * n <= b * n
  {
  }

  // ----- geometry of an accepted torrent -----

  // piece_size as written, in unsigned 64-bit arithmetic
  function PieceSize(t: Torrent, i: nat): nat
  {
    if i == Wrap64(|t.hashes| - 1) then Wrap64(t.totalLength - Wrap64(i * t.pieceLength)) else t.pieceLength
  }

  // the count fits the total, and both fit in 64 bits
  ghost predicate Geometric(t: Torrent)
  {
    && 0 < t.pieceLength <= PIECE_LENGTH_CAP && |t.hashes| < TWO_64
    && Covers(|t.hashes|, t.pieceLength, t.totalLength) && t.totalLength <= LIMIT
  }

  // Every piece size is between 1 and the piece length, and no product or difference wraps.
  lemma PieceSizeExact(t: Torrent, i: nat)
    requires Geometric(t) && i < |t.hashes|
    ensures i * t.pieceLength < TWO_64 && 1 <= PieceSize(t, i) <= t.pieceLength
    ensures PieceSize(t, i) == if i == |t.hashes| - 1 then t.totalLength - i * t.pieceLength else t.pieceLength
  {
    hide Wrap64;
    var n := |t.hashes|;
    Times(i, n - 1, t.pieceLength);
    assert n * t.pieceLength == (n - 1) * t.pieceLength + t.pieceLength;
  }

  function SizesBelow(t: Torrent, n: nat): nat
  {
    if n == 0 then 0 else SizesBelow(t, n - 1) + PieceSize(t, n - 1)
  }

  // The pieces tile the content.
  lemma {:induction false} SizesSum(t: Torrent, n: nat)
    requires Geometric(t) && n <= |t.hashes|
    ensures SizesBelow(t, n) == if n < |t.hashes| then n * t.pieceLength else t.totalLength
  {
    if n == 0 {
      assert |t.hashes| == 0 ==> t.totalLength == 0;
    } else {
      hide Geometric, PieceSize;
      SizesSum(t, n - 1);
      PieceSizeExact(t, n - 1);
      assert n * t.pieceLength == (n - 1) * t.pieceLength + t.pieceLength;
    }
  }

  // Every piece size of an accepted torrent is between 1 and the piece length,
  // and the sizes add up to the lengths of the files. With fewer than 2^32 pieces,
  // the width of a piece index, this is the geometry the managers work with.
  lemma AcceptedIsValid(info: Info, t: Torrent)
    requires Typed(info) && Acceptable(info) && Describes(info, t)
    ensures SizesBelow(t, |t.hashes|) == t.totalLength == D.Sum(Lengths(info))
    ensures forall i :: 0 <= i < |t.hashes| ==> 1 <= PieceSize(t, i) <= t.pieceLength
    ensures |t.hashes| < TWO_32 ==> t.Valid() && forall i :: 0 <= i < t.Count() ==> PieceSize(t, i) == t.Size(i)
  {
    SizesSum(t, |t.hashes|);
    forall i | 0 <= i < |t.hashes|
        ensures 1 <= PieceSize(t, i) <= t.pieceLength && (t.Valid() ==> PieceSize(t, i) == t.Size(i)) {
      PieceSizeExact(t, i);
    }
  }

  // The disk manager's own check that the lengths add up never fires.
  method OpenFiles(info: Info, t: Torrent) returns (files: seq<D.FileEntry>)
    requires Acceptable(info) && Describes(info, t)
    ensures D.Tiles(files, t.totalLength)
  {
    var ok;
    files, ok := D.BuildLayout(Lengths(info), t.totalLength);
    assert ok;
  }

  // ----- paths of an accepted torrent -----

  // a single file is number 0
  predicate HasFile(info: Info, k: nat)
  {
    if info.files.Some? then k < |info.files.value| else k == 0
  }

  // where file k goes, below the download directory
  function Target(info: Info, k: nat): Path
    requires HasFile(info, k)
  {
    [info.name] + (if info.files.Some? then info.files.value[k].path else [])
  }

  // Files land below the download directory, each under its own name, none inside another.
  lemma TargetsAreSafe(info: Info, dir: Path, j: nat, k: nat)
    requires LayoutOk(info) && HasFile(info, j) && HasFile(info, k)
    ensures Resolve(dir, Cut(Text(Target(info, j)))) == dir + Target(info, j)
    ensures j != k ==> !(dir + Target(info, j) <= dir + Target(info, k))
  {
    if info.files.Some? { assert FileOk(info.files.value[j]); }
    SafeStaysBelow(dir, Target(info, j));
    if j != k {
      var p, q := info.files.value[j].path, info.files.value[k].path;
      assert PathsOf(info.files.value)[j] == p && PathsOf(info.files.value)[k] == q;
      assert dir + Target(info, j) == dir + [info.name] + p && dir + Target(info, k) == dir + [info.name] + q;
      if dir + Target(info, j) <= dir + Target(info, k) {
        PrefixInside(dir + [info.name], p, q);
      }
    }
  }

  lemma PrefixInside(dir: Path, p: Path, q: Path)
    requires dir + p <= dir + q
    ensures p <= q
  {
    assert forall i :: 0 <= i < |p| ==> p[i] == (dir + p)[|dir| + i] == (dir + q)[|dir| + i] == q[i];
  }
}
