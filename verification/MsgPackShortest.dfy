/** Among all byte strings a decoder would read as a given object, the encoder's
    output is a shortest one. */
module MsgPackShortest {
  import opened Bytes
  import opened MsgPack
  import opened MsgPackTheorems

  // ---- heads ----

  /** A head with a `w`-byte integer is never shorter than the one the encoder picks. */
  lemma WideIsNoShorter(c: byte, v: nat)
    requires 0xc3 < c < 0xe0 && Width(c) > 0 && v < Pow256(Width(c))
    ensures HeadFits(Wide(c, v)) && |PutHead(Wide(c, v))| <= 1 + Width(c)
  {
    Powers();
    if 0xd0 <= c <= 0xd3 {
      SignedRange(v, Width(c));
    }
  }

  lemma SignedRange(v: nat, w: nat)
    requires w == 1 || w == 2 || w == 4 || w == 8
    requires v < Pow256(w)
    ensures -((Pow256(w) / 2) as int) <= Signed(v, w) < Pow256(w) / 2
  {
    assert Pow256(w) == 256 * Pow256(w - 1);
  }

  lemma HeadIsNoShorter(s: Bytes)
    requires GetHead(s).Good?
    ensures HeadFits(GetHead(s).value) && |PutHead(GetHead(s).value)| + |GetHead(s).rest| <= |s|
  {
    var c, t := s[0], s[1..];
    if 0xc3 < c < 0xe0 {
      assert Width(c) > 0 && Width(c) <= |t|;
      WideIsNoShorter(c, FromBigEndian(t[..Width(c)]));
    }
  }

  // ---- sizes of payloads ----

  ghost function ItemsSize(items: seq<Obj>): nat
    requires forall i :: 0 <= i < |items| ==> Typed(items[i])
  {
    if items == [] then 0 else |Encode(items[0])| + ItemsSize(items[1..])
  }

  lemma {:induction false} ItemsSizeIs(o: Obj, from: nat)
    requires Typed(o) && o.Arr? && from <= |o.items|
    ensures |EncodeItems(o, from)| == ItemsSize(o.items[from..])
    decreases |o.items| - from
  {
    if from < |o.items| {
      ItemsSizeIs(o, from + 1);
      assert o.items[from..][1..] == o.items[from + 1..];
    }
  }

  ghost function PairSize(k: Bytes, v: Obj): nat
    requires Typed(v)
  {
    |PutHead(HStr(|k|))| + |k| + |Encode(v)|
  }

  ghost predicate AllTyped(m: map<Bytes, Obj>) {
    forall k :: k in m ==> Typed(m[k])
  }

  /** The bytes each entry of a map takes. */
  ghost function Sizes(m: map<Bytes, Obj>): map<Bytes, nat>
    requires AllTyped(m)
  {
    map k | k in m :: PairSize(k, m[k])
  }

  function Sum(sizes: map<Bytes, nat>, ks: seq<Bytes>): nat
    requires forall k :: k in ks ==> k in sizes
  {
    if ks == [] then 0 else sizes[ks[0]] + Sum(sizes, ks[1..])
  }

  lemma {:induction false} EntriesSizeIs(o: Obj, ks: seq<Bytes>)
    requires Typed(o) && o.Map? && forall k :: k in ks ==> k in o.entries
    ensures |EncodeEntries(o, ks)| == Sum(Sizes(o.entries), ks)
  {
    if ks != [] {
      EntriesSizeIs(o, ks[1..]);
    }
  }

  lemma SumCons(sizes: map<Bytes, nat>, k: Bytes, ks: seq<Bytes>)
    requires k in sizes && forall x :: x in ks ==> x in sizes
    ensures Sum(sizes, [k] + ks) == sizes[k] + Sum(sizes, ks)
  {
    assert ([k] + ks)[1..] == ks;
  }

  /** A key's share of the sum does not depend on where the key stands. */
  lemma {:induction false} SumWithout(sizes: map<Bytes, nat>, ks: seq<Bytes>, i: nat)
    requires i < |ks| && forall k :: k in ks ==> k in sizes
    ensures forall k :: k in ks[..i] + ks[i + 1..] ==> k in sizes
    ensures Sum(sizes, ks) == sizes[ks[i]] + Sum(sizes, ks[..i] + ks[i + 1..])
    decreases i
  {
    if i == 0 {
      assert ks[..0] + ks[1..] == ks[1..];
    } else {
      var tail := ks[1..];
      SumWithout(sizes, tail, i - 1);
      SumCons(sizes, ks[0], tail[..i - 1] + tail[i..]);
      assert ks[..i] + ks[i + 1..] == [ks[0]] + (tail[..i - 1] + tail[i..]);
    }
  }

  lemma {:induction false} SumSame(m: map<Bytes, nat>, n: map<Bytes, nat>, ks: seq<Bytes>)
    requires forall k :: k in ks ==> k in m && k in n && m[k] == n[k]
    ensures Sum(m, ks) == Sum(n, ks)
  {
    if ks != [] {
      SumSame(m, n, ks[1..]);
    }
  }

  lemma RemoveAt(s: seq<Bytes>, i: nat)
    requires Ascending(s) && i < |s|
    ensures Ascending(s[..i] + s[i + 1..])
    ensures forall x :: x in s[..i] + s[i + 1..] <==> x in s && x != s[i]
  {
    var t := s[..i] + s[i + 1..];
    forall j, j' | 0 <= j < j' < |t| ensures Below(t[j], t[j']) {
      assert t[j] == s[if j < i then j else j + 1] && t[j'] == s[if j' < i then j' else j' + 1];
    }
    forall j | 0 <= j < |s| && j != i ensures s[j] != s[i] && s[j] in t {
      assert Below(s[if i < j then i else j], s[if i < j then j else i]);
      BelowTotal(s[i], s[i]);
      assert t[if j < i then j else j - 1] == s[j];
    }
    forall j | 0 <= j < |t| ensures t[j] in s && t[j] != s[i] {
      assert t[j] == s[if j < i then j else j + 1];
    }
  }

  lemma SortedWithout(ks: set<Bytes>, s: seq<Bytes>, i: nat)
    requires s == SortedKeys(ks) && i < |s|
    ensures s[..i] + s[i + 1..] == SortedKeys(ks - {s[i]})
  {
    RemoveAt(s, i);
    AscendingIsSorted(s[..i] + s[i + 1..], ks - {s[i]});
  }

  ghost function MapSize(m: map<Bytes, Obj>): nat
    requires AllTyped(m)
  {
    Sum(Sizes(m), SortedKeys(m.Keys))
  }

  lemma KeyAt(ks: set<Bytes>, k: Bytes) returns (i: nat)
    requires k in ks
    ensures i < |SortedKeys(ks)| && SortedKeys(ks)[i] == k
  {
    assert k in SortedKeys(ks);
    i :| i < |SortedKeys(ks)| && SortedKeys(ks)[i] == k;
  }

  lemma SumAddAt(m: map<Bytes, nat>, n: map<Bytes, nat>, ks: seq<Bytes>, i: nat, ls: seq<Bytes>)
    requires i < |ks| && ls == ks[..i] + ks[i + 1..]
    requires (forall x :: x in ks ==> x in n) && forall x :: x in ls ==> x in m && m[x] == n[x]
    ensures Sum(n, ks) == n[ks[i]] + Sum(m, ls)
  {
    SumWithout(n, ks, i);
    SumSame(n, m, ls);
  }

  /** Where the order puts a new key. */
  lemma SortedAdd(ms: set<Bytes>, ns: set<Bytes>, k: Bytes) returns (i: nat)
    requires k !in ms && ns == ms + {k}
    ensures var ks := SortedKeys(ns); i < |ks| && ks[i] == k && SortedKeys(ms) == ks[..i] + ks[i + 1..]
  {
    i := KeyAt(ns, k);
    SortedWithout(ns, SortedKeys(ns), i);
    assert ns - {k} == ms;
  }

  lemma SizesAdd(m: map<Bytes, Obj>, n: map<Bytes, Obj>, k: Bytes, v: Obj)
    requires AllTyped(m) && AllTyped(n) && Typed(v) && k !in m && n == m[k := v]
    ensures Sizes(n) == Sizes(m)[k := PairSize(k, v)]
  {
    forall x | x in n ensures Sizes(n)[x] == Sizes(m)[k := PairSize(k, v)][x] {
      assert x != k ==> n[x] == m[x];
    }
  }

  lemma TypedAdd(m: map<Bytes, Obj>, n: map<Bytes, Obj>, k: Bytes, v: Obj)
    requires AllTyped(m) && Typed(v) && n == m[k := v]
    ensures AllTyped(n)
  {
  }

  lemma MapSizeAdd(m: map<Bytes, Obj>, n: map<Bytes, Obj>, k: Bytes, v: Obj)
    requires AllTyped(m) && AllTyped(n) && Typed(v) && k !in m && n == m[k := v]
    ensures MapSize(n) == PairSize(k, v) + MapSize(m)
  {
    var i := SortedAdd(m.Keys, n.Keys, k);
    SizesSumAdd(m, n, k, v, SortedKeys(n.Keys), i, SortedKeys(m.Keys));
  }

  lemma SizesSumAdd(m: map<Bytes, Obj>, n: map<Bytes, Obj>, k: Bytes, v: Obj, ks: seq<Bytes>, i: nat, ls: seq<Bytes>)
    requires AllTyped(m) && AllTyped(n) && Typed(v) && k !in m && n == m[k := v]
    requires i < |ks| && ks[i] == k && ls == ks[..i] + ks[i + 1..]
    requires (forall x :: x in ks ==> x in n) && forall x :: x in ls ==> x in m
    ensures Sum(Sizes(n), ks) == PairSize(k, v) + Sum(Sizes(m), ls)
  {
    SizesAdd(m, n, k, v);
    SumAddAt(Sizes(m), Sizes(n), ks, i, ls);
  }

  lemma PairSizeIs(k: Bytes, v: Obj)
    requires Typed(v)
    ensures PairSize(k, v) == |Encode(Str(k))| + |Encode(v)|
  {
  }

  // ---- objects ----

  /** Whatever bytes a decoder reads as `o`, the encoding of `o` needs no more; and
      everything a decoder can read is something the encoder can write. */
  lemma {:induction false} EncodingIsShortest(s: Bytes)
    requires Decode(s).Good?
    ensures var r := Decode(s);
      Typed(r.value) && Fits(r.value) && |Encode(r.value)| + |r.rest| <= |s|
    decreases |s|, 1
  {
    HeadIsNoShorter(s);
    var h := GetHead(s);
    match h.value
    case HStr(n) => DecodeStr(s, n, h.rest);
    case HArr(n) => ArrIsShortest(s, n);
    case HMap(n) => MapIsShortest(s, n);
    case _ =>
  }

  lemma {:induction false} ArrIsShortest(s: Bytes, n: nat)
    requires Decode(s).Good? && GetHead(s).Good? && GetHead(s).value == HArr(n)
    ensures var r := Decode(s);
      Typed(r.value) && Fits(r.value) && |Encode(r.value)| + |r.rest| <= |s|
    decreases |s|, 0
  {
    var t := GetHead(s).rest;
    HeadIsNoShorter(s);
    DecodeArr(s, n, t);
    ItemsAreShortest(n, t);
    var o := Decode(s).value;
    ItemsSizeIs(o, 0);
    assert o.items[0..] == o.items;
  }

  lemma {:induction false} MapIsShortest(s: Bytes, n: nat)
    requires Decode(s).Good? && GetHead(s).Good? && GetHead(s).value == HMap(n)
    ensures var r := Decode(s);
      Typed(r.value) && Fits(r.value) && |Encode(r.value)| + |r.rest| <= |s|
    decreases |s|, 0
  {
    var t := GetHead(s).rest;
    HeadIsNoShorter(s);
    DecodeMap(s, n, t);
    EntriesAreShortest(n, t);
    var o := Decode(s).value;
    EntriesSizeIs(o, SortedKeys(o.entries.Keys));
  }

  ghost predicate GoodItems(items: seq<Obj>) {
    forall i :: 0 <= i < |items| ==> Typed(items[i]) && Fits(items[i])
  }

  lemma ItemsSizeCons(first: Obj, others: seq<Obj>)
    requires Typed(first) && Fits(first) && GoodItems(others)
    ensures GoodItems([first] + others) && ItemsSize([first] + others) == |Encode(first)| + ItemsSize(others)
  {
    assert ([first] + others)[1..] == others;
  }

  lemma {:induction false} ItemsAreShortest(n: nat, s: Bytes)
    requires DecodeItems(n, s).Good?
    ensures var r := DecodeItems(n, s);
      GoodItems(r.value) && ItemsSize(r.value) + |r.rest| <= |s|
    decreases |s|, n + 2
  {
    if n > 0 {
      DecodeItemsStep(n, s);
      EncodingIsShortest(s);
      ItemsAreShortest(n - 1, Decode(s).rest);
      ItemsSizeCons(Decode(s).value, DecodeItems(n - 1, Decode(s).rest).value);
    }
  }

  ghost predicate AllGood(m: map<Bytes, Obj>) {
    forall k :: k in m ==> |k| < TWO32 && Typed(m[k]) && Fits(m[k])
  }

  lemma SizesJoin(m: map<Bytes, Obj>, n: map<Bytes, Obj>, k: Bytes, v: Obj)
    requires AllGood(m) && Fits(Str(k)) && Typed(v) && Fits(v) && k !in m && n == m[k := v]
    ensures AllGood(n) && MapSize(n) == |Encode(Str(k))| + |Encode(v)| + MapSize(m)
  {
    hide Encode, MapSize, PairSize;
    TypedAdd(m, n, k, v);
    MapSizeAdd(m, n, k, v);
    PairSizeIs(k, v);
  }

  lemma {:induction false} EntriesAreShortest(n: nat, s: Bytes)
    requires DecodeEntries(n, s).Good?
    ensures AllGood(DecodeEntries(n, s).value)
    ensures MapSize(DecodeEntries(n, s).value) + |DecodeEntries(n, s).rest| <= |s|
    decreases |s|, n + 2
  {
    if n == 0 {
      assert SortedKeys({}) == [];
    } else {
      DecodeEntriesStep(n, s);
      var key := Decode(s);
      var v := Decode(key.rest);
      EncodingIsShortest(s);
      EncodingIsShortest(key.rest);
      EntriesAreShortest(n - 1, v.rest);
      SizesJoin(DecodeEntries(n - 1, v.rest).value, DecodeEntries(n, s).value, key.value.s, v.value);
    }
  }
}
