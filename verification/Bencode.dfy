// The bencode parser (src/metainfo/parser.cpp) and the encoding it inverts ("bencoding" in BEP 3).
module Bencode {
  import opened Types

  const INT_MARK: Byte := 105
  const LIST_MARK: Byte := 108
  const DICT_MARK: Byte := 100
  const END_MARK: Byte := 101
  const MINUS: Byte := 45
  const COLON: Byte := 58
  const ZERO: Byte := 48
  const INFO: Bytes := [105, 110, 102, 111]

  const MAX_DEPTH: nat := 100

  // a dictionary is the in-order listing of its map
  datatype Value = Int(n: int) | Str(s: Bytes) | List(items: seq<Value>) | Dict(entries: seq<Entry>)
  datatype Entry = Entry(key: Bytes, value: Value)

  // ----- the encoding -----

  function Digits(n: nat): Bytes
  {
    if n < 10 then [48 + n] else Digits(n / 10) + [48 + n % 10]
  }

  function EncodeInt(n: int): Bytes
  {
    [INT_MARK] + (if n < 0 then [MINUS] + Digits(-n) else Digits(n)) + [END_MARK]
  }

  function EncodeStr(s: Bytes): Bytes
  {
    Digits(|s|) + [COLON] + s
  }

  function Encode(v: Value): Bytes
    decreases v
  {
    match v
    case Int(n) => EncodeInt(n)
    case Str(s) => EncodeStr(s)
    case List(items) => [LIST_MARK] + EncodeItems(items) + [END_MARK]
    case Dict(entries) => [DICT_MARK] + EncodeEntries(entries) + [END_MARK]
  }

  function EncodeItems(items: seq<Value>): Bytes
    decreases items
  {
    if items == [] then [] else EncodeItems(items[..|items| - 1]) + Encode(items[|items| - 1])
  }

  function EncodeEntry(e: Entry): Bytes
    decreases e
  {
    EncodeStr(e.key) + Encode(e.value)
  }

  function EncodeEntries(entries: seq<Entry>): Bytes
    decreases entries
  {
    if entries == [] then [] else EncodeEntries(entries[..|entries| - 1]) + EncodeEntry(entries[|entries| - 1])
  }

  // bytes compare as unsigned, strings lexicographically
  predicate Before(a: Bytes, b: Bytes)
  {
    b != [] && (a == [] || a[0] < b[0] || (a[0] == b[0] && Before(a[1..], b[1..])))
  }

  // 64-bit integers, strictly increasing keys, and containers at most room deep
  ghost predicate Fits(v: Value, room: nat)
    decreases v
  {
    match v
    case Int(n) => -0x8000_0000_0000_0000 <= n < 0x8000_0000_0000_0000
    case Str(_) => true
    case List(items) => room > 0 && forall x :: x in items ==> Fits(x, room - 1)
    case Dict(entries) => room > 0 && Ordered(entries) && forall e :: e in entries ==> Fits(e.value, room - 1)
  }

  ghost predicate Ordered(entries: seq<Entry>)
  {
    forall k :: 0 < k < |entries| ==> Before(entries[k - 1].key, entries[k].key)
  }

  // ----- numbers -----

  predicate IsDigit(b: Byte)
  {
    48 <= b <= 57
  }

  // the value from_chars reads off a run of digits
  function Number(run: Bytes): nat
    requires forall k :: 0 <= k < |run| ==> IsDigit(run[k])
  {
    if run == [] then 0
    else
      assert IsDigit(run[|run| - 1]);
      var last: int := run[|run| - 1];
      Number(run[..|run| - 1]) * 10 + (last - 48)
  }

  // no leading zero but for zero itself
  predicate Canonical(run: Bytes)
  {
    run != [] && (run[0] == ZERO ==> |run| == 1)
  }

  lemma {:induction false} DigitsNumber(n: nat)
    ensures forall k :: 0 <= k < |Digits(n)| ==> IsDigit(Digits(n)[k])
    ensures Canonical(Digits(n)) && Number(Digits(n)) == n
    ensures Digits(n)[0] == ZERO <==> n == 0
  {
    if n >= 10 {
      DigitsNumber(n / 10);
      assert Digits(n)[..|Digits(n)| - 1] == Digits(n / 10);
    } else {
      assert Digits(n)[..|Digits(n)| - 1] == [];
    }
  }

  lemma {:induction false} NumberDigits(run: Bytes)
    requires forall k :: 0 <= k < |run| ==> IsDigit(run[k])
    requires Canonical(run)
    ensures Digits(Number(run)) == run
    ensures run[0] == ZERO <==> Number(run) == 0
  {
    if |run| == 1 {
      assert run[..0] == [];
      assert run == [run[0]];
    } else {
      var front := run[..|run| - 1];
      NumberDigits(front);
      assert run == front + [run[|run| - 1]];
    }
  }

  // k bytes of digits, and then none
  ghost predicate IsRun(s: Bytes, k: nat)
  {
    k <= |s| && (forall j :: 0 <= j < k ==> IsDigit(s[j])) && (k < |s| ==> !IsDigit(s[k]))
  }

  lemma NumberStands(n: nat, stop: Byte, s: Bytes, k: nat)
    requires Digits(n) + [stop] <= s && !IsDigit(stop) && IsRun(s, k)
    ensures s[..k] == Digits(n) && k < |s| && s[k] == stop
  {
    DigitsNumber(n);
    var d := Digits(n);
    assert forall j :: 0 <= j < |d| ==> s[j] == d[j];
    assert s[|d|] == stop;
    assert s[..|d|] == d;
  }

  // ----- what an encoding starts with -----

  lemma Opens(v: Value)
    ensures Encode(v) != []
    ensures v.Int? ==> Encode(v)[0] == INT_MARK
    ensures v.Str? ==> IsDigit(Encode(v)[0])
    ensures v.List? ==> Encode(v)[0] == LIST_MARK
    ensures v.Dict? ==> Encode(v)[0] == DICT_MARK
  {
    if v.Str? { DigitsNumber(|v.s|); }
  }

  lemma Chop(a: Bytes, b: Bytes, s: Bytes)
    requires a + b <= s
    ensures a <= s && b <= s[|a|..]
  {
    assert s[..|a|] == (a + b)[..|a|] == a;
    forall k | 0 <= k < |b| ensures s[|a|..][k] == b[k] {
      assert (a + b)[|a| + k] == b[k];
    }
  }

  // where something else stands, no container ends
  lemma NotBoth(front: Bytes, x: Bytes, s: Bytes)
    requires front + x <= s && x != [] && x[0] != END_MARK
    ensures !(front + [END_MARK] <= s)
  {
    assert s[|front|] == (front + x)[|front|] == x[0];
    assert (front + [END_MARK])[|front|] == END_MARK;
  }

  // ----- no encoding is a prefix of another -----

  lemma IntAgrees(m: int, n: int, s: Bytes)
    requires EncodeInt(m) <= s && EncodeInt(n) <= s
    ensures m == n
  {
    IntStands(m, s, RunLength(s[1 + Sign(s)..]));
    IntStands(n, s, RunLength(s[1 + Sign(s)..]));
    DigitsNumber(if m < 0 then -m else m);
    DigitsNumber(if n < 0 then -n else n);
  }

  function Sign(s: Bytes): (k: nat)
    ensures k <= 1 && 0 < |s| ==> 1 + k <= |s|
  {
    if 1 < |s| && s[1] == MINUS then 1 else 0
  }

  function RunLength(s: Bytes): (k: nat)
    ensures IsRun(s, k)
  {
    if s == [] || !IsDigit(s[0]) then 0 else 1 + RunLength(s[1..])
  }

  // where an integer's sign, digits and end stand
  lemma IntStands(n: int, s: Bytes, k: nat)
    requires EncodeInt(n) <= s && IsRun(s[1 + Sign(s)..], k)
    ensures var digits := s[1 + Sign(s)..];
      && s[0] == INT_MARK && (n < 0 <==> Sign(s) == 1)
      && k < |digits| && digits[k] == END_MARK && digits[..k] == Digits(if n < 0 then -n else n)
  {
    var d := Digits(if n < 0 then -n else n);
    DigitsNumber(if n < 0 then -n else n);
    var lead := if n < 0 then [INT_MARK, MINUS] else [INT_MARK];
    assert EncodeInt(n) == lead + (d + [END_MARK]);
    Chop(lead, d + [END_MARK], s);
    assert s[0] == lead[0];
    if n < 0 {
      assert s[1] == lead[1];
    } else {
      assert s[1..][0] == (d + [END_MARK])[0] == d[0];
    }
    NumberStands(if n < 0 then -n else n, END_MARK, s[|lead|..], k);
  }

  // where a string's length and bytes stand
  lemma StrStands(x: Bytes, s: Bytes, k: nat)
    requires EncodeStr(x) <= s && IsRun(s, k)
    ensures k < |s| && s[..k] == Digits(|x|) && s[k] == COLON && x <= s[k + 1..]
  {
    Chop(Digits(|x|) + [COLON], x, s);
    NumberStands(|x|, COLON, s, k);
  }

  lemma StrAgrees(x: Bytes, y: Bytes, s: Bytes)
    requires EncodeStr(x) <= s && EncodeStr(y) <= s
    ensures x == y
  {
    var k := RunLength(s);
    StrStands(x, s, k);
    StrStands(y, s, k);
    DigitsNumber(|x|);
    DigitsNumber(|y|);
    assert x == s[k + 1..][..|x|];
  }

  lemma {:induction false} ValueAgrees(x: Value, y: Value, s: Bytes)
    requires Encode(x) <= s && Encode(y) <= s
    ensures x == y
    decreases x
  {
    Opens(x);
    Opens(y);
    assert Encode(x)[0] == s[0] == Encode(y)[0];
    match x
    case Int(m) => IntAgrees(m, y.n, s);
    case Str(a) => StrAgrees(a, y.s, s);
    case List(items) =>
      Chop([LIST_MARK], EncodeItems(items) + [END_MARK], s);
      Chop([LIST_MARK], EncodeItems(y.items) + [END_MARK], s);
      ListAgrees(items, y.items, s[1..]);
    case Dict(entries) =>
      Chop([DICT_MARK], EncodeEntries(entries) + [END_MARK], s);
      Chop([DICT_MARK], EncodeEntries(y.entries) + [END_MARK], s);
      DictAgrees(entries, y.entries, s[1..]);
  }

  lemma {:induction false} ListAgrees(items: seq<Value>, whole: seq<Value>, s: Bytes)
    requires EncodeItems(items) + [END_MARK] <= s && EncodeItems(whole) + [END_MARK] <= s
    ensures items == whole
    decreases items, 1
  {
    Chop(EncodeItems(items), [END_MARK], s);
    ItemsLead(items, whole, s);
    assert whole[..|items|] == items;
    if |items| < |whole| {
      ItemFollows(whole, |items|, s);
      Opens(whole[|items|]);
    }
  }

  // what has been read of a list so far is how every list standing there begins
  lemma {:induction false} ItemsLead(items: seq<Value>, whole: seq<Value>, s: Bytes)
    requires EncodeItems(items) <= s && EncodeItems(whole) + [END_MARK] <= s
    ensures items <= whole
    decreases items, 0
  {
    if items == [] {
    } else {
      var n := |items| - 1;
      Chop(EncodeItems(items[..n]), Encode(items[n]), s);
      ItemsLead(items[..n], whole, s);
      Opens(items[n]);
      NotBoth(EncodeItems(items[..n]), Encode(items[n]), s);
      assert items[..n] != whole && items[..n] <= whole;
      assert whole[..n] == items[..n];
      ItemFollows(whole, n, s);
      ValueAgrees(items[n], whole[n], s[|EncodeItems(items[..n])|..]);
      assert whole[..n + 1] == items;
    }
  }

  lemma {:induction false} ItemFollows(whole: seq<Value>, n: nat, s: Bytes)
    requires n < |whole| && EncodeItems(whole) + [END_MARK] <= s
    ensures EncodeItems(whole[..n]) <= s && Encode(whole[n]) <= s[|EncodeItems(whole[..n])|..]
  {
    Chop(EncodeItems(whole), [END_MARK], s);
    ItemsPrefix(whole, n + 1);
    assert whole[..n + 1][..n] == whole[..n];
    assert EncodeItems(whole[..n + 1]) <= s;
    Chop(EncodeItems(whole[..n]), Encode(whole[n]), s);
  }

  lemma {:induction false} ItemsPrefix(whole: seq<Value>, n: nat)
    requires n <= |whole|
    ensures EncodeItems(whole[..n]) <= EncodeItems(whole)
    decreases |whole|
  {
    if n == |whole| {
      assert whole[..n] == whole;
    } else {
      ItemsPrefix(whole[..|whole| - 1], n);
      assert whole[..|whole| - 1][..n] == whole[..n];
    }
  }

  lemma {:induction false} DictAgrees(entries: seq<Entry>, whole: seq<Entry>, s: Bytes)
    requires EncodeEntries(entries) + [END_MARK] <= s && EncodeEntries(whole) + [END_MARK] <= s
    ensures entries == whole
    decreases entries, 1
  {
    Chop(EncodeEntries(entries), [END_MARK], s);
    EntriesLead(entries, whole, s);
    assert whole[..|entries|] == entries;
    if |entries| < |whole| {
      EntryFollows(whole, |entries|, s);
      EntryOpens(whole[|entries|]);
    }
  }

  lemma EntryOpens(e: Entry)
    ensures EncodeEntry(e) != [] && IsDigit(EncodeEntry(e)[0])
  {
    DigitsNumber(|e.key|);
  }

  lemma {:induction false} EntriesLead(entries: seq<Entry>, whole: seq<Entry>, s: Bytes)
    requires EncodeEntries(entries) <= s && EncodeEntries(whole) + [END_MARK] <= s
    ensures entries <= whole
    decreases entries, 0
  {
    if entries == [] {
    } else {
      var n := |entries| - 1;
      Chop(EncodeEntries(entries[..n]), EncodeEntry(entries[n]), s);
      EntriesLead(entries[..n], whole, s);
      EntryOpens(entries[n]);
      NotBoth(EncodeEntries(entries[..n]), EncodeEntry(entries[n]), s);
      assert entries[..n] != whole && entries[..n] <= whole;
      assert whole[..n] == entries[..n];
      EntryFollows(whole, n, s);
      EntryAgrees(entries[n], whole[n], s[|EncodeEntries(entries[..n])|..]);
      assert whole[..n + 1] == entries;
    }
  }

  lemma EntryAgrees(d: Entry, e: Entry, s: Bytes)
    requires EncodeEntry(d) <= s && EncodeEntry(e) <= s
    ensures d == e
    decreases d
  {
    Chop(EncodeStr(d.key), Encode(d.value), s);
    Chop(EncodeStr(e.key), Encode(e.value), s);
    StrAgrees(d.key, e.key, s);
    ValueAgrees(d.value, e.value, s[|EncodeStr(d.key)|..]);
  }

  lemma {:induction false} EntryFollows(whole: seq<Entry>, n: nat, s: Bytes)
    requires n < |whole| && EncodeEntries(whole) + [END_MARK] <= s
    ensures EncodeEntries(whole[..n]) <= s && EncodeEntry(whole[n]) <= s[|EncodeEntries(whole[..n])|..]
  {
    Chop(EncodeEntries(whole), [END_MARK], s);
    EntriesPrefix(whole, n + 1);
    assert whole[..n + 1][..n] == whole[..n];
    assert EncodeEntries(whole[..n + 1]) <= s;
    Chop(EncodeEntries(whole[..n]), EncodeEntry(whole[n]), s);
  }

  lemma {:induction false} EntriesPrefix(whole: seq<Entry>, n: nat)
    requires n <= |whole|
    ensures EncodeEntries(whole[..n]) <= EncodeEntries(whole)
    decreases |whole|
  {
    if n == |whole| {
      assert whole[..n] == whole;
    } else {
      EntriesPrefix(whole[..|whole| - 1], n);
      assert whole[..|whole| - 1][..n] == whole[..n];
    }
  }

  // ----- byte order -----

  lemma {:induction false} BeforeTransitive(a: Bytes, b: Bytes, c: Bytes)
    requires Before(a, b) && Before(b, c)
    ensures Before(a, c)
  {
    if a != [] && a[0] == b[0] == c[0] {
      BeforeTransitive(a[1..], b[1..], c[1..]);
    }
  }

  lemma {:induction false} NotBeforeItself(a: Bytes)
    ensures !Before(a, a)
  {
    if a == [] {
    } else {
      NotBeforeItself(a[1..]);
    }
  }

  lemma {:induction false} BeforeTotal(a: Bytes, b: Bytes)
    ensures a == b || Before(a, b) || Before(b, a)
  {
    if a != [] && b != [] && a[0] == b[0] {
      BeforeTotal(a[1..], b[1..]);
      assert a == [a[0]] + a[1..] && b == [b[0]] + b[1..];
    }
  }
}
