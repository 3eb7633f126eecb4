// File paths of a torrent (src/metainfo/torrent.cpp: check_component and the
// prefix check of validate_layout).
module Paths {
  import opened Types
  import opened Bencode

  type Path = seq<Bytes>

  const SLASH: Byte := 47
  const BACKSLASH: Byte := 92
  const NUL: Byte := 0
  const DOT: Bytes := [46]
  const DOTS: Bytes := [46, 46]

  predicate SafeComponent(c: Bytes)
  {
    c != [] && c != DOT && c != DOTS && SLASH !in c && BACKSLASH !in c && NUL !in c
  }

  // ----- what a safe path resolves to -----

  // components joined by slashes, as the file system is handed them
  function Text(path: Path): Bytes
    requires path != []
  {
    if |path| == 1 then path[0] else path[0] + [SLASH] + Text(path[1..])
  }

  // the file system's reading of such a text: cut at slashes, then follow "." and ".."
  function Cut(text: Bytes): (path: Path)
    ensures path != []
  {
    if text == [] then [[]]
    else
      var rest := Cut(text[1..]);
      if text[0] == SLASH then [[]] + rest else [[text[0]] + rest[0]] + rest[1..]
  }

  function Resolve(dir: Path, path: Path): Path
    decreases path
  {
    if path == [] then dir
    else if path[0] == [] || path[0] == DOT then Resolve(dir, path[1..])
    else if path[0] == DOTS then Resolve(if dir == [] then [] else dir[..|dir| - 1], path[1..])
    else Resolve(dir + [path[0]], path[1..])
  }

  lemma {:induction false} CutFirst(c: Bytes, rest: Bytes)
    requires SLASH !in c
    ensures Cut(c) == [c]
    ensures Cut(c + [SLASH] + rest) == [c] + Cut(rest)
    decreases |c|
  {
    if c == [] {
      assert c + [SLASH] + rest == [SLASH] + rest;
      assert ([SLASH] + rest)[1..] == rest;
    } else {
      CutFirst(c[1..], rest);
      assert (c + [SLASH] + rest)[1..] == c[1..] + [SLASH] + rest;
      assert [c[0]] + c[1..] == c;
    }
  }

  lemma {:induction false} CutText(path: Path)
    requires path != [] && forall c :: c in path ==> SafeComponent(c)
    ensures Cut(Text(path)) == path
    decreases |path|
  {
    assert SafeComponent(path[0]);
    if |path| == 1 {
      CutFirst(path[0], []);
      assert path == [path[0]];
    } else {
      CutText(path[1..]);
      CutFirst(path[0], Text(path[1..]));
      assert path == [path[0]] + path[1..];
    }
  }

  lemma {:induction false} ResolveSafe(dir: Path, path: Path)
    requires forall c :: c in path ==> SafeComponent(c)
    ensures Resolve(dir, path) == dir + path
    decreases |path|
  {
    if path != [] {
      assert SafeComponent(path[0]);
      ResolveSafe(dir + [path[0]], path[1..]);
      assert dir + [path[0]] + path[1..] == dir + path;
    } else {
      assert dir + path == dir;
    }
  }

  // A path of safe components names, below any directory, exactly itself.
  lemma SafeStaysBelow(dir: Path, path: Path)
    requires path != [] && forall c :: c in path ==> SafeComponent(c)
    ensures Resolve(dir, Cut(Text(path))) == dir + path
  {
    CutText(path);
    ResolveSafe(dir, path);
  }

  // ----- the order the paths are sorted by -----

  predicate PathLe(p: Path, q: Path)
  {
    p == [] || (q != [] && (Before(p[0], q[0]) || (p[0] == q[0] && PathLe(p[1..], q[1..]))))
  }

  lemma {:induction false} PathTotal(p: Path, q: Path)
    ensures PathLe(p, q) || PathLe(q, p)
  {
    if p != [] && q != [] {
      BeforeTotal(p[0], q[0]);
      PathTotal(p[1..], q[1..]);
    }
  }

  lemma {:induction false} PathTransitive(p: Path, q: Path, r: Path)
    requires PathLe(p, q) && PathLe(q, r)
    ensures PathLe(p, r)
  {
    if p == [] {
    } else {
      NotBeforeItself(q[0]);
      if Before(p[0], q[0]) && Before(q[0], r[0]) {
        BeforeTransitive(p[0], q[0], r[0]);
      } else if p[0] == q[0] == r[0] {
        PathTransitive(p[1..], q[1..], r[1..]);
      }
    }
  }

  lemma {:induction false} PrefixLe(p: Path, q: Path)
    requires p <= q
    ensures PathLe(p, q)
  {
    if p == [] {
    } else {
      PrefixLe(p[1..], q[1..]);
    }
  }

  // whatever sorts between a path and one of its extensions extends it too
  lemma {:induction false} Between(p: Path, q: Path, r: Path)
    requires PathLe(p, q) && PathLe(q, r) && p <= r
    ensures p <= q
  {
    if p == [] {
    } else {
      NotBeforeItself(p[0]);
      if Before(p[0], q[0]) && Before(q[0], r[0]) {
        BeforeTransitive(p[0], q[0], r[0]);
      }
      Between(p[1..], q[1..], r[1..]);
      assert p == [p[0]] + p[1..] && q == [q[0]] + q[1..];
    }
  }

  ghost predicate Sorted(paths: seq<Path>)
  {
    forall i, j :: 0 <= i < j < |paths| ==> PathLe(paths[i], paths[j])
  }

  // no path equals, or is a directory of, another
  ghost predicate ClashFree(paths: seq<Path>)
  {
    forall i, j :: 0 <= i < |paths| && 0 <= j < |paths| && i != j ==> !(paths[i] <= paths[j])
  }

  // among sorted paths the neighbours decide
  lemma NeighboursDecide(paths: seq<Path>)
    requires Sorted(paths)
    ensures ClashFree(paths) <==> forall k :: 0 <= k < |paths| - 1 ==> !(paths[k] <= paths[k + 1])
  {
    if forall k :: 0 <= k < |paths| - 1 ==> !(paths[k] <= paths[k + 1]) {
      forall i, j | 0 <= i < |paths| && 0 <= j < |paths| && i != j ensures !(paths[i] <= paths[j]) {
        if paths[i] <= paths[j] { NeighbourClash(paths, i, j); }
      }
    }
  }

  lemma NeighbourClash(paths: seq<Path>, i: nat, j: nat)
    requires Sorted(paths) && i < |paths| && j < |paths| && i != j && paths[i] <= paths[j]
    ensures exists k :: 0 <= k < |paths| - 1 && paths[k] <= paths[k + 1]
  {
    var p, q := paths[i], paths[j];
    if i < j {
      if i + 1 < j { Between(p, paths[i + 1], q); }
      assert paths[i] <= paths[i + 1];
    } else {
      PrefixLe(p, q);
      SamePlace(p, q);
      if j + 1 < i { Between(q, paths[j + 1], p); }
      assert paths[j] <= paths[j + 1];
    }
  }

  lemma {:induction false} SamePlace(p: Path, q: Path)
    requires PathLe(p, q) && PathLe(q, p)
    ensures p == q
  {
    if p == [] {
    } else {
      NotBeforeItself(p[0]);
      if Before(p[0], q[0]) && Before(q[0], p[0]) {
        BeforeTransitive(p[0], q[0], p[0]);
      }
      SamePlace(p[1..], q[1..]);
      assert p == [p[0]] + p[1..] && q == [q[0]] + q[1..];
    }
  }

  // ----- sorting -----

  method SortPaths(paths: seq<Path>) returns (sorted: seq<Path>)
    ensures Sorted(sorted) && multiset(sorted) == multiset(paths)
    ensures ClashFree(sorted) <==> ClashFree(paths)
  {
    hide PathLe, Apart, Sorted, ClashFree;
    sorted := [];
    NoneToSort(paths);
    var n := 0;
    while n < |paths|
      invariant 0 <= n <= |paths| && Sorted(sorted) && multiset(sorted) == multiset(paths[..n])
      invariant ClashFree(sorted) <==> ClashFree(paths[..n])
    {
      var p, k := paths[n], 0;
      while k < |sorted| && PathLe(sorted[k], p)
        invariant 0 <= k <= |sorted|
        invariant forall j :: 0 <= j < k ==> PathLe(sorted[j], p)
      {
        k := k + 1;
      }
      InsertSorted(sorted, p, k);
      InsertClash(sorted, p, k);
      SameClash(sorted, paths[..n], p);
      InsertOne(paths, n, sorted, k);
      sorted := sorted[..k] + [p] + sorted[k..];
      n := n + 1;
    }
    assert paths[..n] == paths;
  }

  lemma NoneToSort(paths: seq<Path>)
    ensures Sorted([]) && ClashFree([]) && paths[..0] == []
  {
  }

  lemma InsertOne(paths: seq<Path>, n: nat, sorted: seq<Path>, k: nat)
    requires n < |paths| && k <= |sorted| && multiset(sorted) == multiset(paths[..n])
    ensures paths[..n + 1] == paths[..n] + [paths[n]]
    ensures multiset(sorted[..k] + [paths[n]] + sorted[k..]) == multiset(paths[..n + 1])
  {
    assert paths[..n + 1] == paths[..n] + [paths[n]];
    assert sorted == sorted[..k] + sorted[k..];
  }

  lemma InsertSorted(sorted: seq<Path>, p: Path, k: nat)
    requires Sorted(sorted) && k <= |sorted|
    requires forall j :: 0 <= j < k ==> PathLe(sorted[j], p)
    requires k < |sorted| ==> !PathLe(sorted[k], p)
    ensures Sorted(sorted[..k] + [p] + sorted[k..])
  {
    var s := sorted[..k] + [p] + sorted[k..];
    forall i, j | 0 <= i < j < |s| ensures PathLe(s[i], s[j]) {
      if i == k {
        PathTotal(p, sorted[k]);
        if j - 1 > k { PathTransitive(p, sorted[k], sorted[j - 1]); }
      }
    }
  }

  // where element i of s ends up, and where element i of the longer list came from
  lemma InsertMoves(s: seq<Path>, p: Path, k: nat, t: seq<Path>)
    requires k <= |s| && t == s[..k] + [p] + s[k..]
    ensures |t| == |s| + 1 && t[k] == p
    ensures forall i :: 0 <= i < |s| ==> t[Shift(k, i)] == s[i]
    ensures forall i :: 0 <= i < |t| && i != k ==> t[i] == s[if i < k then i else i - 1]
  {
  }

  function Shift(k: nat, i: nat): nat
  {
    if i < k then i else i + 1
  }

  lemma InsertClash(s: seq<Path>, p: Path, k: nat)
    requires k <= |s|
    ensures ClashFree(s[..k] + [p] + s[k..]) <==> ClashFree(s) && Apart(s, p)
  {
    var t := s[..k] + [p] + s[k..];
    InsertMoves(s, p, k, t);
    if ClashFree(t) { ClashFreeBefore(s, p, k, t); }
    if ClashFree(s) && Apart(s, p) { ClashFreeAfter(s, p, k, t); }
  }

  lemma ClashFreeBefore(s: seq<Path>, p: Path, k: nat, t: seq<Path>)
    requires k <= |s| && |t| == |s| + 1 && t[k] == p && forall i :: 0 <= i < |s| ==> t[Shift(k, i)] == s[i]
    requires ClashFree(t)
    ensures ClashFree(s) && Apart(s, p)
  {
    forall i, j | 0 <= i < |s| && 0 <= j < |s| && i != j ensures !(s[i] <= s[j]) {
      assert !(t[Shift(k, i)] <= t[Shift(k, j)]);
    }
    forall i | 0 <= i < |s| ensures !(s[i] <= p) && !(p <= s[i]) {
      assert !(t[Shift(k, i)] <= t[k]) && !(t[k] <= t[Shift(k, i)]);
    }
  }

  lemma ClashFreeAfter(s: seq<Path>, p: Path, k: nat, t: seq<Path>)
    requires k <= |s| && |t| == |s| + 1 && t[k] == p
    requires forall i :: 0 <= i < |t| && i != k ==> t[i] == s[if i < k then i else i - 1]
    requires ClashFree(s) && Apart(s, p)
    ensures ClashFree(t)
  {
    forall i, j | 0 <= i < |t| && 0 <= j < |t| && i != j ensures !(t[i] <= t[j]) {
      if i != k { assert t[i] in s; }
      if j != k { assert t[j] in s; }
    }
  }

  ghost predicate Apart(s: seq<Path>, p: Path)
  {
    forall x :: x in s ==> !(x <= p) && !(p <= x)
  }

  lemma SameClash(s: seq<Path>, t: seq<Path>, p: Path)
    requires multiset(s) == multiset(t) && (ClashFree(s) <==> ClashFree(t))
    ensures ClashFree(s) && Apart(s, p) <==> ClashFree(t + [p])
  {
    InsertClash(t, p, |t|);
    assert t[..|t|] + [p] + t[|t|..] == t + [p];
    assert forall x :: x in s <==> x in multiset(s);
    assert forall x :: x in t <==> x in multiset(t);
  }
}
