// BencodeParser (src/metainfo/parser.cpp): recursive descent over a cursor, a
// depth counter and the bounds of the "info" value. A parse that throws returns
// None here.
module BencodeParsers {
  import opened Types
  import opened Bencode

  // some value that fits starts s
  ghost predicate Readable(s: Bytes, room: nat)
  {
    exists v :: Fits(v, room) && Encode(v) <= s
  }

  ghost predicate StrReadable(s: Bytes)
  {
    exists x :: EncodeStr(x) <= s
  }

  class BencodeParser {
    const data: Bytes
    var pos: nat
    var depth: nat
    var infoStart: nat
    var infoEnd: nat

    ghost predicate Valid()
      reads this
    {
      pos <= |data| < TWO_64
    }

    constructor (input: Bytes)
      requires |input| < TWO_64
      ensures Valid() && data == input && pos == depth == infoStart == infoEnd == 0
    {
      data := input;
      pos, depth, infoStart, infoEnd := 0, 0, 0, 0;
    }

    // Accepts exactly the encodings of values that fit, and returns the value;
    // the info range holds the encoding of the root dictionary's "info" value.
    method Parse() returns (r: Option<Value>)
      requires Valid() && pos == depth == infoStart == infoEnd == 0
      modifies this
      ensures r.Some? ==> data == Encode(r.value) && Fits(r.value, MAX_DEPTH)
      ensures forall v :: Fits(v, MAX_DEPTH) && Encode(v) == data ==> r == Some(v)
      ensures r.Some? ==> Marked(r.value, data, infoStart, infoEnd)
    {
      r := ParseValue();
      assert data[0..] == data;
      if r.None? {
        NothingWhole(data);
        return;
      }
      if pos != |data| {
        Longer(r.value, data);
        return None;
      }
      assert data[0..pos] == data;
      forall v | Encode(v) == data ensures v == r.value {
        ValueAgrees(v, r.value, data);
      }
    }

    method ParseValue() returns (r: Option<Value>)
      requires Valid() && depth <= MAX_DEPTH
      modifies this
      ensures Valid()
      ensures r.Some? ==> Reads(old(pos), old(depth), r.value)
      ensures r.Some? ==> if old(depth) > 0 then InfoKept(old(infoStart), old(infoEnd))
              else MarkedSince(r.value, old(infoStart), old(infoEnd))
      ensures r.None? ==> !Readable(data[old(pos)..], MAX_DEPTH - old(depth))
      decreases |data| - pos, 1
    {
      ghost var s := data[pos..];
      if pos >= |data| {
        OpensElsewhere(s, MAX_DEPTH - depth);
        return None;
      }
      var c := data[pos];
      assert s[0] == c;
      if c == INT_MARK { r := ParseInt(); return; }
      if c == LIST_MARK { r := ParseList(); return; }
      if c == DICT_MARK { r := ParseDict(); return; }
      if IsDigit(c) { r := ParseString(); return; }
      OpensElsewhere(s, MAX_DEPTH - depth);
      return None;
    }

    // the value stands between the old cursor and the new one
    ghost predicate Reads(from: nat, level: nat, v: Value)
      reads this
    {
      from < pos <= |data| && depth == level <= MAX_DEPTH && data[from..pos] == Encode(v) && Fits(v, MAX_DEPTH - level)
    }

    ghost predicate InfoKept(start: nat, end: nat)
      reads this`infoStart, this`infoEnd
    {
      infoStart == start && infoEnd == end
    }

    ghost predicate MarkedSince(v: Value, start: nat, end: nat)
      reads this`infoStart, this`infoEnd
    {
      if v.Dict? then EntriesMarked(v.entries, start, end) else InfoKept(start, end)
    }

    ghost predicate EntriesMarked(entries: seq<Entry>, start: nat, end: nat)
      reads this`infoStart, this`infoEnd
    {
      && (forall e :: e in entries && e.key == INFO ==>
            infoStart <= infoEnd <= |data| && data[infoStart..infoEnd] == Encode(e.value))
      && ((forall e :: e in entries ==> e.key != INFO) ==> InfoKept(start, end))
    }

    lemma NothingMarked()
      ensures EntriesMarked([], infoStart, infoEnd)
    {
    }

    method SkipDigits()
      requires Valid()
      modifies this`pos
      ensures Valid() && old(pos) <= pos && IsRun(data[old(pos)..], pos - old(pos))
    {
      while pos < |data| && IsDigit(data[pos])
        invariant old(pos) <= pos <= |data|
        invariant forall k :: old(pos) <= k < pos ==> IsDigit(data[k])
      {
        pos := pos + 1;
      }
    }

    method ParseInt() returns (r: Option<Value>)
      requires Valid() && depth <= MAX_DEPTH && pos < |data| && data[pos] == INT_MARK
      modifies this`pos
      ensures Valid()
      ensures r.Some? ==> Reads(old(pos), old(depth), r.value) && !r.value.Dict?
      ensures r.None? ==> !Readable(data[old(pos)..], MAX_DEPTH - old(depth))
    {
      hide Readable, EncodeInt;
      ghost var s, room := data[pos..], MAX_DEPTH - depth;
      pos := pos + 1;
      var start := pos;
      if pos < |data| && data[pos] == MINUS {
        pos := pos + 1;
      }
      var negative := pos != start;
      var digitsStart := pos;
      assert data[digitsStart..] == s[1 + Sign(s)..];
      SkipDigits();
      ghost var k := pos - digitsStart;
      var run := data[digitsStart..pos];
      assert s[1 + Sign(s)..][..k] == run;
      if pos >= |data| || data[pos] != END_MARK || !Canonical(run) || (negative && run[0] == ZERO)
          || !InRange(Signed(negative, run)) {
        NotAnInt(s, k, room);
        return None;
      }
      IntBuilt(s, k);
      pos := pos + 1;
      assert data[old(pos)..pos] == s[..1 + Sign(s) + k + 1];
      return Some(Int(Signed(negative, run)));
    }

    method ParseString() returns (r: Option<Value>)
      requires Valid() && depth <= MAX_DEPTH && pos < |data| && IsDigit(data[pos])
      modifies this`pos
      ensures Valid()
      ensures r.Some? ==> Reads(old(pos), old(depth), r.value) && !r.value.Dict?
      ensures r.None? ==> !Readable(data[old(pos)..], MAX_DEPTH - old(depth))
    {
      ghost var s, room := data[pos..], MAX_DEPTH - depth;
      var str := ReadString();
      if str.None? {
        NotAString(s, room);
        return None;
      }
      return Some(Str(str.value));
    }

    method ReadString() returns (r: Option<Bytes>)
      requires Valid()
      modifies this`pos
      ensures Valid()
      ensures r.Some? ==> old(pos) < pos && data[old(pos)..pos] == EncodeStr(r.value)
      ensures r.None? ==> !StrReadable(data[old(pos)..])
    {
      var digitsStart := pos;
      ghost var s := data[pos..];
      SkipDigits();
      ghost var k := pos - digitsStart;
      var run := data[digitsStart..pos];
      assert s[..k] == run;
      if pos >= |data| || data[pos] != COLON || !Canonical(run) {
        NoStringHere(s, k);
        return None;
      }
      var length := Number(run);
      if length >= TWO_64 {
        NoStringHere(s, k);
        return None;
      }
      pos := pos + 1;
      if length > |data| - pos {
        NoStringHere(s, k);
        return None;
      }
      var str := data[pos..pos + length];
      pos := pos + length;
      NumberDigits(run);
      assert data[old(pos)..pos] == run + [COLON] + str;
      return Some(str);
    }

    method ParseList() returns (r: Option<Value>)
      requires Valid() && depth <= MAX_DEPTH && pos < |data| && data[pos] == LIST_MARK
      modifies this
      ensures Valid()
      ensures r.Some? ==> Reads(old(pos), old(depth), r.value) && !r.value.Dict?
      ensures r.Some? ==> InfoKept(old(infoStart), old(infoEnd))
      ensures r.None? ==> !Readable(data[old(pos)..], MAX_DEPTH - old(depth))
      decreases |data| - pos, 0
    {
      ghost var s, room := data[pos..], MAX_DEPTH - depth;
      depth := depth + 1;
      if depth > MAX_DEPTH {
        TooDeep(s);
        return None;
      }
      pos := pos + 1;
      var list := [];
      assert EncodeItems(list) == [];
      while pos < |data| && data[pos] != END_MARK
        invariant Valid() && old(pos) < pos && depth == old(depth) + 1 <= MAX_DEPTH
        invariant data[old(pos)..pos] == [LIST_MARK] + EncodeItems(list)
        invariant forall x :: x in list ==> Fits(x, room - 1)
        invariant InfoKept(old(infoStart), old(infoEnd))
        decreases |data| - pos
      {
        ghost var at := pos;
        var item := ParseValue();
        if item.None? {
          Upto(data, old(pos), at, [LIST_MARK] + EncodeItems(list));
          ListStops(s, list, room);
          return None;
        }
        assert (list + [item.value])[..|list|] == list;
        Joined(data, old(pos), at, pos);
        list := list + [item.value];
      }
      if pos >= |data| {
        Upto(data, old(pos), pos, [LIST_MARK] + EncodeItems(list));
        ListStops(s, list, room);
        return None;
      }
      assert data[old(pos)..pos + 1] == data[old(pos)..pos] + [END_MARK];
      pos := pos + 1;
      depth := depth - 1;
      return Some(List(list));
    }

    method ParseDict() returns (r: Option<Value>)
      requires Valid() && depth <= MAX_DEPTH && pos < |data| && data[pos] == DICT_MARK
      modifies this
      ensures Valid()
      ensures r.Some? ==> Reads(old(pos), old(depth), r.value) && r.value.Dict?
      ensures r.Some? ==> if old(depth) > 0 then InfoKept(old(infoStart), old(infoEnd))
              else EntriesMarked(r.value.entries, old(infoStart), old(infoEnd))
      ensures r.None? ==> !Readable(data[old(pos)..], MAX_DEPTH - old(depth))
      decreases |data| - pos, 0
    {
      hide Readable, Before, EncodeEntry, Fits, Encode, EntriesMarked, InfoKept;
      ghost var s, room := data[pos..], MAX_DEPTH - depth;
      depth := depth + 1;
      if depth > MAX_DEPTH {
        TooDeep(s);
        return None;
      }
      pos := pos + 1;
      var dict: seq<Entry> := [];
      assert EncodeEntries(dict) == [];
      NothingMarked();
      while pos < |data| && data[pos] != END_MARK
        invariant Valid() && old(pos) < pos && depth == old(depth) + 1 <= MAX_DEPTH
        invariant data[old(pos)..pos] == [DICT_MARK] + EncodeEntries(dict)
        invariant Ordered(dict) && forall e :: e in dict ==> Fits(e.value, room - 1)
        invariant if old(depth) > 0 then InfoKept(old(infoStart), old(infoEnd))
                  else EntriesMarked(dict, old(infoStart), old(infoEnd))
        decreases |data| - pos
      {
        ghost var at := pos;
        var entry := ParseEntry(dict, old(pos), old(infoStart), old(infoEnd));
        if entry.None? { return None; }
        Joined(data, old(pos), at, pos);
        assert (dict + [entry.value])[..|dict|] == dict;
        dict := dict + [entry.value];
      }
      if pos >= |data| {
        Upto(data, old(pos), pos, [DICT_MARK] + EncodeEntries(dict));
        NoKey(s, dict, room);
        return None;
      }
      assert data[old(pos)..pos + 1] == data[old(pos)..pos] + [END_MARK];
      DictWhole(dict, room);
      pos := pos + 1;
      depth := depth - 1;
      return Some(Dict(dict));
    }

    // one round of the dictionary loop: a key after all earlier keys, and its value
    method ParseEntry(dict: seq<Entry>, ghost from: nat, ghost start: nat, ghost end: nat) returns (r: Option<Entry>)
      requires Valid() && 0 < depth <= MAX_DEPTH && from < pos < |data| && data[pos] != END_MARK
      requires data[from..pos] == [DICT_MARK] + EncodeEntries(dict) && Ordered(dict)
      requires if depth > 1 then InfoKept(start, end) else EntriesMarked(dict, start, end)
      modifies this
      ensures Valid()
      ensures r.Some? ==> old(pos) < pos && depth == old(depth) && data[old(pos)..pos] == EncodeEntry(r.value)
      ensures r.Some? ==> Ordered(dict + [r.value]) && Fits(r.value.value, MAX_DEPTH - depth)
      ensures r.Some? ==> if depth > 1 then InfoKept(start, end) else EntriesMarked(dict + [r.value], start, end)
      ensures r.None? ==> !Readable(data[from..], MAX_DEPTH - old(depth) + 1)
      decreases |data| - pos, 2
    {
      hide Readable, StrReadable, Fits, Encode, EncodeStr, EncodeEntries, Before;
      ghost var s, room := data[from..], MAX_DEPTH - depth + 1;
      Upto(data, from, pos, [DICT_MARK] + EncodeEntries(dict));
      var key := ReadString();
      if key.None? {
        NoKey(s, dict, room);
        return None;
      }
      assert EncodeStr(key.value) <= data[old(pos)..] by { Upto(data, old(pos), pos, EncodeStr(key.value)); }
      if dict != [] && !Before(dict[|dict| - 1].key, key.value) {
        NoValue(s, dict, room, key.value);
        return None;
      }
      var isInfo := depth == 1 && key.value == INFO;
      if isInfo {
        infoStart := pos;
      }
      ghost var at := pos;
      var value := ParseValue();
      if value.None? {
        assert data[old(pos)..][|EncodeStr(key.value)|..] == data[at..];
        NoValue(s, dict, room, key.value);
        return None;
      }
      if isInfo {
        infoEnd := pos;
      }
      var entry := Entry(key.value, value.value);
      assert data[old(pos)..pos] == EncodeEntry(entry);
      KeyIsNew(dict, key.value);
      return Some(entry);
    }
  }

  // ----- reasons to stop -----

  lemma NothingWhole(s: Bytes)
    requires !Readable(s, MAX_DEPTH)
    ensures forall v :: Fits(v, MAX_DEPTH) ==> Encode(v) != s
  {
  }

  // a value that ends early rules out every value that does not
  lemma Longer(v: Value, s: Bytes)
    requires Encode(v) <= s && Encode(v) != s
    ensures forall w :: Fits(w, MAX_DEPTH) ==> Encode(w) != s
  {
    forall w | Fits(w, MAX_DEPTH) ensures Encode(w) != s {
      if Encode(w) == s { ValueAgrees(v, w, s); }
    }
  }

  // the bytes from 'from' to 'to' start what stands at 'from', and the rest stands at 'to'
  lemma Upto(data: Bytes, from: nat, to: nat, x: Bytes)
    requires from <= to <= |data| && data[from..to] == x
    ensures x <= data[from..] && data[from..][|x|..] == data[to..]
  {
  }

  lemma Joined(data: Bytes, a: nat, b: nat, c: nat)
    requires a <= b <= c <= |data|
    ensures data[a..c] == data[a..b] + data[b..c]
  {
  }

  lemma OpensElsewhere(s: Bytes, room: nat)
    requires s == [] || (s[0] != INT_MARK && s[0] != LIST_MARK && s[0] != DICT_MARK && !IsDigit(s[0]))
    ensures !Readable(s, room)
  {
    forall v | Fits(v, room) ensures !(Encode(v) <= s) {
      Opens(v);
    }
  }

  lemma TooDeep(s: Bytes)
    requires s != [] && (s[0] == LIST_MARK || s[0] == DICT_MARK)
    ensures !Readable(s, 0)
  {
    forall v | Fits(v, 0) ensures !(Encode(v) <= s) {
      Opens(v);
    }
  }

  ghost predicate IntHere(s: Bytes, k: nat)
    requires s != [] && IsRun(s[1 + Sign(s)..], k)
  {
    var digits := s[1 + Sign(s)..];
    && k < |digits| && digits[k] == END_MARK && Canonical(digits[..k]) && (Sign(s) == 1 ==> digits[0] != ZERO)
    && InRange(Signed(Sign(s) == 1, digits[..k]))
  }

  function Signed(negative: bool, run: Bytes): int
    requires forall k :: 0 <= k < |run| ==> IsDigit(run[k])
  {
    var n: int := Number(run);
    if negative then -n else n
  }

  predicate InRange(n: int)
  {
    -0x8000_0000_0000_0000 <= n < 0x8000_0000_0000_0000
  }

  lemma NotAnInt(s: Bytes, k: nat, room: nat)
    requires s != [] && s[0] == INT_MARK && IsRun(s[1 + Sign(s)..], k) && !IntHere(s, k)
    ensures !Readable(s, room)
  {
    forall v | Fits(v, room) ensures !(Encode(v) <= s) {
      if Encode(v) <= s { IntFound(s, k, room, v); }
    }
  }

  lemma IntFound(s: Bytes, k: nat, room: nat, v: Value)
    requires s != [] && s[0] == INT_MARK && IsRun(s[1 + Sign(s)..], k) && Fits(v, room) && Encode(v) <= s
    ensures IntHere(s, k)
  {
    Opens(v);
    IntStands(v.n, s, k);
    DigitsNumber(if v.n < 0 then -v.n else v.n);
  }

  lemma IntBuilt(s: Bytes, k: nat)
    requires s != [] && s[0] == INT_MARK && IsRun(s[1 + Sign(s)..], k) && IntHere(s, k)
    ensures s[..1 + Sign(s) + k + 1] == EncodeInt(Signed(Sign(s) == 1, s[1 + Sign(s)..][..k]))
  {
    var run := s[1 + Sign(s)..][..k];
    NumberDigits(run);
    assert s[..1 + Sign(s) + k + 1] == s[..1 + Sign(s)] + run + [END_MARK];
    if Sign(s) == 1 {
      assert s[..2] == [INT_MARK, MINUS];
    } else {
      assert s[..1] == [INT_MARK];
    }
  }

  lemma NoStringHere(s: Bytes, k: nat)
    requires |s| < TWO_64 && IsRun(s, k)
    requires k >= |s| || s[k] != COLON || !Canonical(s[..k]) || Number(s[..k]) >= TWO_64 || Number(s[..k]) > |s| - k - 1
    ensures !StrReadable(s)
  {
    forall x ensures !(EncodeStr(x) <= s) {
      if EncodeStr(x) <= s {
        StrStands(x, s, k);
        DigitsNumber(|x|);
      }
    }
  }

  lemma NotAString(s: Bytes, room: nat)
    requires s != [] && IsDigit(s[0]) && !StrReadable(s)
    ensures !Readable(s, room)
  {
    forall v | Fits(v, room) ensures !(Encode(v) <= s) {
      if Encode(v) <= s { Opens(v); }
    }
  }

  // a list that starts with these items goes on with its end or with another item
  lemma ListGoesOn(s: Bytes, items: seq<Value>, room: nat, v: Value)
    requires [LIST_MARK] + EncodeItems(items) <= s && Fits(v, room) && Encode(v) <= s
    ensures room > 0
    ensures var rest := s[1 + |EncodeItems(items)|..]; rest != [] && (rest[0] == END_MARK || Readable(rest, room - 1))
  {
    var n, rest := |items|, s[1..][|EncodeItems(items)|..];
    Chop([LIST_MARK], EncodeItems(items), s);
    assert rest == s[1 + |EncodeItems(items)|..];
    Opens(v);
    Chop([LIST_MARK], EncodeItems(v.items) + [END_MARK], s);
    ItemsLead(items, v.items, s[1..]);
    assert v.items[..n] == items;
    if |v.items| == n {
      assert v.items == items;
      Chop(EncodeItems(v.items), [END_MARK], s[1..]);
    } else {
      ItemFollows(v.items, n, s[1..]);
      Opens(v.items[n]);
      assert v.items[n] in v.items;
    }
  }

  lemma ListStops(s: Bytes, items: seq<Value>, room: nat)
    requires room > 0 && [LIST_MARK] + EncodeItems(items) <= s
    requires var rest := s[1 + |EncodeItems(items)|..]; rest == [] || (rest[0] != END_MARK && !Readable(rest, room - 1))
    ensures !Readable(s, room)
  {
    hide Readable;
    forall v | Fits(v, room) ensures !(Encode(v) <= s) {
      if Encode(v) <= s { ListGoesOn(s, items, room, v); }
    }
    Unreadable(s, room);
  }

  lemma Unreadable(s: Bytes, room: nat)
    requires forall v :: Fits(v, room) ==> !(Encode(v) <= s)
    ensures !Readable(s, room)
  {
  }

  // a dictionary that starts with these entries goes on with its end or with a later key and a value
  lemma DictGoesOn(s: Bytes, entries: seq<Entry>, room: nat, v: Value) returns (key: Bytes)
    requires [DICT_MARK] + EncodeEntries(entries) <= s && Fits(v, room) && Encode(v) <= s
    ensures
      var rest := s[1 + |EncodeEntries(entries)|..];
      && rest != [] && room > 0
      && (rest[0] != END_MARK ==>
            && EncodeStr(key) <= rest && Readable(rest[|EncodeStr(key)|..], room - 1)
            && (entries != [] ==> Before(entries[|entries| - 1].key, key)))
  {
    var n, rest := |entries|, s[1..][|EncodeEntries(entries)|..];
    Chop([DICT_MARK], EncodeEntries(entries), s);
    assert rest == s[1 + |EncodeEntries(entries)|..];
    Opens(v);
    Chop([DICT_MARK], EncodeEntries(v.entries) + [END_MARK], s);
    EntriesLead(entries, v.entries, s[1..]);
    assert v.entries[..n] == entries;
    key := [];
    if |v.entries| == n {
      assert v.entries == entries;
      Chop(EncodeEntries(v.entries), [END_MARK], s[1..]);
    } else {
      EntryFollows(v.entries, n, s[1..]);
      var e := v.entries[n];
      key := e.key;
      EntryOpens(e);
      Chop(EncodeStr(key), Encode(e.value), rest);
      assert e in v.entries;
      assert n > 0 ==> Before(v.entries[n - 1].key, v.entries[n].key);
    }
  }

  // the input ends, or there is no key
  lemma NoKey(s: Bytes, entries: seq<Entry>, room: nat)
    requires room > 0 && [DICT_MARK] + EncodeEntries(entries) <= s
    requires var rest := s[1 + |EncodeEntries(entries)|..]; rest == [] || (rest[0] != END_MARK && !StrReadable(rest))
    ensures !Readable(s, room)
  {
    hide Readable;
    forall v | Fits(v, room) ensures !(Encode(v) <= s) {
      if Encode(v) <= s { var key := DictGoesOn(s, entries, room, v); }
    }
    Unreadable(s, room);
  }

  // the key is out of order, or its value is not there
  lemma NoValue(s: Bytes, entries: seq<Entry>, room: nat, key: Bytes)
    requires room > 0 && [DICT_MARK] + EncodeEntries(entries) <= s
    requires var rest := s[1 + |EncodeEntries(entries)|..];
      && rest != [] && rest[0] != END_MARK && EncodeStr(key) <= rest
      && ((entries != [] && !Before(entries[|entries| - 1].key, key)) || !Readable(rest[|EncodeStr(key)|..], room - 1))
    ensures !Readable(s, room)
  {
    hide Readable;
    forall v | Fits(v, room) ensures !(Encode(v) <= s) {
      if Encode(v) <= s { OtherKey(s, entries, room, v, key); }
    }
    Unreadable(s, room);
  }

  lemma OtherKey(s: Bytes, entries: seq<Entry>, room: nat, v: Value, key: Bytes)
    requires [DICT_MARK] + EncodeEntries(entries) <= s && Fits(v, room) && Encode(v) <= s
    requires var rest := s[1 + |EncodeEntries(entries)|..]; rest != [] && rest[0] != END_MARK && EncodeStr(key) <= rest
    ensures room > 0 && Readable(s[1 + |EncodeEntries(entries)|..][|EncodeStr(key)|..], room - 1)
    ensures entries != [] ==> Before(entries[|entries| - 1].key, key)
  {
    var rest := s[1 + |EncodeEntries(entries)|..];
    var key' := DictGoesOn(s, entries, room, v);
    StrAgrees(key, key', rest);
  }

  lemma DictWhole(dict: seq<Entry>, room: nat)
    requires room > 0 && Ordered(dict) && forall e :: e in dict ==> Fits(e.value, room - 1)
    ensures Fits(Dict(dict), room) && Encode(Dict(dict)) == [DICT_MARK] + EncodeEntries(dict) + [END_MARK]
  {
  }

  // ----- key order -----

  lemma {:induction false} AllBefore(entries: seq<Entry>, k: nat, key: Bytes)
    requires Ordered(entries) && k < |entries| && Before(entries[|entries| - 1].key, key)
    ensures Before(entries[k].key, key)
    decreases |entries| - k
  {
    if k + 1 < |entries| {
      AllBefore(entries, k + 1, key);
      assert Before(entries[k + 1 - 1].key, entries[k + 1].key);
      BeforeTransitive(entries[k].key, entries[k + 1].key, key);
    }
  }

  lemma KeyIsNew(entries: seq<Entry>, key: Bytes)
    requires Ordered(entries) && (entries != [] ==> Before(entries[|entries| - 1].key, key))
    ensures forall e :: e in entries ==> e.key != key
  {
    forall k | 0 <= k < |entries| ensures entries[k].key != key {
      AllBefore(entries, k, key);
      NotBeforeItself(key);
    }
  }

  // ----- the info range -----

  // the range holds the encoding of the root's "info" value, and is empty when there is none
  ghost predicate Marked(v: Value, data: Bytes, start: nat, end: nat)
  {
    if !v.Dict? || forall e :: e in v.entries ==> e.key != INFO then start == end == 0
    else forall e :: e in v.entries && e.key == INFO ==> start <= end <= |data| && data[start..end] == Encode(e.value)
  }
}
