/** What a reader of the encoder's output gets back. */
module MsgPackTheorems {
  import opened Seqs
  import opened Bytes
  import opened MsgPack

  /** Every length in the object is below 2^32. */
  predicate Fits(o: Obj)
    decreases o, 1
  {
    match o
    case Str(s) => |s| < TWO32
    case Arr(items) => |items| < TWO32 && forall i :: 0 <= i < |items| ==> Fits(items[i])
    case Map(m) => |m| < TWO32 && forall k :: k in m ==> |k| < TWO32 && Fits(m[k])
    case _ => true
  }

  // ---- round trip ----

  /** What the decoder does with an object once its head is read. */
  lemma DecodeStr(s: Bytes, n: nat, t: Bytes)
    requires GetHead(s) == Good(HStr(n), t)
    ensures Decode(s) == if |t| < n then Bad else Good(Str(t[..n]), t[n..])
  {
  }

  lemma DecodeArr(s: Bytes, n: nat, t: Bytes)
    requires GetHead(s) == Good(HArr(n), t)
    ensures var r := DecodeItems(n, t);
      Decode(s) == if r.Bad? then Bad else Good(Arr(r.value), r.rest)
  {
  }

  lemma DecodeMap(s: Bytes, n: nat, t: Bytes)
    requires GetHead(s) == Good(HMap(n), t)
    ensures var r := DecodeEntries(n, t);
      Decode(s) == if r.Bad? then Bad else Good(Map(r.value), r.rest)
  {
  }

  lemma DecodeItemsStep(n: nat, s: Bytes)
    requires n > 0
    ensures DecodeItems(n, s).Good? <==> Decode(s).Good? && DecodeItems(n - 1, Decode(s).rest).Good?
    ensures DecodeItems(n, s).Good? ==>
      var others := DecodeItems(n - 1, Decode(s).rest);
      DecodeItems(n, s) == Good([Decode(s).value] + others.value, others.rest)
  {
  }

  lemma DecodeEntriesStep(n: nat, s: Bytes)
    requires n > 0
    ensures DecodeEntries(n, s).Good? <==>
      && Decode(s).Good? && Decode(s).value.Str? && Decode(Decode(s).rest).Good?
      && var others := DecodeEntries(n - 1, Decode(Decode(s).rest).rest);
         others.Good? && Decode(s).value.s !in others.value
    ensures DecodeEntries(n, s).Good? ==>
      var v := Decode(Decode(s).rest);
      var others := DecodeEntries(n - 1, v.rest);
      DecodeEntries(n, s) == Good(others.value[Decode(s).value.s := v.value], others.rest)
  {
  }

  /** A decoder that meets the encoding of `o`, whatever follows, reads `o` and stops
      right after it. */
  ghost predicate ReadsBack(o: Obj)
    requires Typed(o)
  {
    forall rest: Bytes :: Decode(Encode(o) + rest) == Good(o, rest)
  }

  lemma {:induction false} RoundTrip(o: Obj, rest: Bytes)
    requires Typed(o) && Fits(o)
    ensures Decode(Encode(o) + rest) == Good(o, rest)
  {
    AllReadBack(o);
  }

  lemma {:induction false} AllReadBack(o: Obj)
    requires Typed(o) && Fits(o)
    ensures ReadsBack(o)
  {
    match o
    case Str(s) => forall rest: Bytes ensures Decode(Encode(o) + rest) == Good(o, rest) { StrRoundTrip(s, rest); }
    case Arr(items) =>
      forall i | 0 <= i < |items| ensures ReadsBack(items[i]) { AllReadBack(items[i]); }
      forall rest: Bytes ensures Decode(Encode(o) + rest) == Good(o, rest) { ArrRoundTrip(o, rest); }
    case Map(m) =>
      forall k | k in m ensures ReadsBack(m[k]) { AllReadBack(m[k]); }
      forall rest: Bytes ensures Decode(Encode(o) + rest) == Good(o, rest) { MapRoundTrip(o, rest); }
    case _ => forall rest: Bytes ensures Decode(Encode(o) + rest) == Good(o, rest) { AtomRoundTrip(o, rest); }
  }

  lemma AtomRoundTrip(o: Obj, rest: Bytes)
    requires Typed(o) && (o.Nil? || o.Bool? || o.Int? || o.Float?)
    ensures Decode(Encode(o) + rest) == Good(o, rest)
  {
    match o
    case Nil => GetPutHead(HNil, rest);
    case Bool(b) => GetPutHead(HBool(b), rest);
    case Int(n) => GetPutHead(HInt(n), rest);
    case Float(bits) => GetPutHead(HFloat(bits), rest);
  }

  lemma StrRoundTrip(s: Bytes, rest: Bytes)
    requires |s| < TWO32
    ensures Decode(PutHead(HStr(|s|)) + s + rest) == Good(Str(s), rest)
  {
    SmallRemainder(|s|, TWO32);
    StrDecodes(s, rest);
    Cut(s, rest);
  }

  lemma Cut(s: Bytes, rest: Bytes)
    ensures (s + rest)[..|s|] == s && (s + rest)[|s|..] == rest
  {
  }

  /** A string of any length, as the decoder sees it. */
  lemma StrDecodes(s: Bytes, rest: Bytes)
    ensures var n, t := |s| % TWO32, s + rest;
      Decode(PutHead(HStr(|s|)) + s + rest) == Good(Str(t[..n]), t[n..])
  {
    GetPutStrHead(|s|, s + rest);
    AfterHead(PutHead(HStr(|s|)), s, rest, |s| % TWO32);
  }

  lemma AfterHead(head: Bytes, s: Bytes, rest: Bytes, n: nat)
    requires GetHead(head + (s + rest)) == Good(HStr(n), s + rest) && n <= |s|
    ensures Decode(head + s + rest) == Good(Str((s + rest)[..n]), (s + rest)[n..])
  {
    Regroup(head, s, rest);
    DecodeStr(head + (s + rest), n, s + rest);
  }

  lemma ArrDecodes(o: Obj, rest: Bytes)
    requires Typed(o) && o.Arr?
    ensures var r := DecodeItems(|o.items| % TWO32, EncodeItems(o, 0) + rest);
      Decode(Encode(o) + rest) == if r.Bad? then Bad else Good(Arr(r.value), r.rest)
  {
    var p, t := PutHead(HArr(|o.items|)), EncodeItems(o, 0);
    GetPutArrHead(|o.items|, t + rest);
    Regroup(p, t, rest);
    DecodeArr(p + (t + rest), |o.items| % TWO32, t + rest);
  }

  lemma MapDecodes(o: Obj, rest: Bytes)
    requires Typed(o) && o.Map?
    ensures var r := DecodeEntries(|o.entries| % TWO32, EncodeEntries(o, SortedKeys(o.entries.Keys)) + rest);
      Decode(Encode(o) + rest) == if r.Bad? then Bad else Good(Map(r.value), r.rest)
  {
    var p, t := PutHead(HMap(|o.entries|)), EncodeEntries(o, SortedKeys(o.entries.Keys));
    GetPutMapHead(|o.entries|, t + rest);
    Regroup(p, t, rest);
    DecodeMap(p + (t + rest), |o.entries| % TWO32, t + rest);
  }

  lemma ArrRoundTrip(o: Obj, rest: Bytes)
    requires Typed(o) && o.Arr? && |o.items| < TWO32
    requires forall i :: 0 <= i < |o.items| ==> ReadsBack(o.items[i])
    ensures Decode(Encode(o) + rest) == Good(o, rest)
  {
    ItemsRoundTrip(o, 0, |o.items|, rest);
    assert o.items[0..] == o.items;
    SmallRemainder(|o.items|, TWO32);
    ArrDecodes(o, rest);
  }

  lemma MapRoundTrip(o: Obj, rest: Bytes)
    requires Typed(o) && o.Map? && |o.entries| < TWO32
    requires forall k :: k in o.entries ==> |k| < TWO32 && ReadsBack(o.entries[k])
    ensures Decode(Encode(o) + rest) == Good(o, rest)
  {
    var ks := SortedKeys(o.entries.Keys);
    EntriesRoundTrip(o, ks, rest);
    AllOf(o.entries, ks);
    SmallRemainder(|o.entries|, TWO32);
    MapDecodes(o, rest);
  }

  lemma {:induction false} ItemsRoundTrip(o: Obj, from: nat, n: nat, rest: Bytes)
    requires Typed(o) && o.Arr? && from + n == |o.items|
    requires forall i :: from <= i < |o.items| ==> ReadsBack(o.items[i])
    ensures DecodeItems(n, EncodeItems(o, from) + rest) == Good(o.items[from..], rest)
    decreases n
  {
    hide Decode, DecodeEntries, DecodeItems, Encode, EncodeEntries, EncodeItems, PutHead, GetHead;
    if n == 0 {
      NoItems(o, rest);
    } else {
      ItemsRoundTrip(o, from + 1, n - 1, rest);
      ItemsStep(o, from, n, rest, EncodeItems(o, from + 1) + rest, EncodeItems(o, from) + rest);
    }
  }

  lemma ItemsStep(o: Obj, from: nat, n: nat, rest: Bytes, t: Bytes, s: Bytes)
    requires Typed(o) && o.Arr? && from < |o.items| && n > 0 && ReadsBack(o.items[from])
    requires t == EncodeItems(o, from + 1) + rest && s == EncodeItems(o, from) + rest
    requires DecodeItems(n - 1, t) == Good(o.items[from + 1..], rest)
    ensures DecodeItems(n, s) == Good(o.items[from..], rest)
  {
    ItemsUnfold(o, from, rest);
    ItemReads(o, from, t);
    ItemsJoin(n, s, o.items, from, t, rest);
  }

  lemma NoItems(o: Obj, rest: Bytes)
    requires Typed(o) && o.Arr?
    ensures DecodeItems(0, EncodeItems(o, |o.items|) + rest) == Good(o.items[|o.items|..], rest)
  {
    assert EncodeItems(o, |o.items|) + rest == rest;
    assert o.items[|o.items|..] == [];
  }

  lemma ItemReads(o: Obj, i: nat, t: Bytes)
    requires Typed(o) && o.Arr? && i < |o.items| && ReadsBack(o.items[i])
    ensures Decode(Encode(o.items[i]) + t) == Good(o.items[i], t)
  {
  }

  lemma ItemsJoin(n: nat, s: Bytes, items: seq<Obj>, from: nat, t: Bytes, rest: Bytes)
    requires n > 0 && from < |items|
    requires Decode(s) == Good(items[from], t) && DecodeItems(n - 1, t) == Good(items[from + 1..], rest)
    ensures DecodeItems(n, s) == Good(items[from..], rest)
  {
    DecodeItemsStep(n, s);
    assert items[from..] == [items[from]] + items[from + 1..];
  }

  lemma ItemsSplit(n: nat, s: Bytes, items: seq<Obj>, from: nat)
    requires n > 0 && from < |items|
    requires DecodeItems(n, s).Good? && DecodeItems(n, s).value == items[from..]
    ensures Decode(s).Good? && Decode(s).value == items[from]
    ensures var r := DecodeItems(n - 1, Decode(s).rest); r.Good? && r.value == items[from + 1..]
  {
    DecodeItemsStep(n, s);
    assert items[from..] == [items[from]] + items[from + 1..];
  }

  lemma ItemsUnfold(o: Obj, from: nat, rest: Bytes)
    requires Typed(o) && o.Arr? && from < |o.items|
    ensures EncodeItems(o, from) + rest == Encode(o.items[from]) + (EncodeItems(o, from + 1) + rest)
  {
  }

  ghost function Part(m: map<Bytes, Obj>, ks: seq<Bytes>): map<Bytes, Obj>
    requires forall k :: k in ks ==> k in m
  {
    map k | k in ks :: m[k]
  }

  lemma AllOf(m: map<Bytes, Obj>, ks: seq<Bytes>)
    requires forall k :: k in ks <==> k in m
    ensures Part(m, ks) == m
  {
  }

  lemma PartStep(m: map<Bytes, Obj>, ks: seq<Bytes>)
    requires ks != [] && forall k :: k in ks ==> k in m
    ensures Part(m, ks) == Part(m, ks[1..])[ks[0] := m[ks[0]]]
  {
  }

  lemma {:induction false} EntriesRoundTrip(o: Obj, ks: seq<Bytes>, rest: Bytes)
    requires Typed(o) && o.Map? && Ascending(ks) && forall k :: k in ks ==> k in o.entries
    requires forall k :: k in ks ==> |k| < TWO32 && ReadsBack(o.entries[k])
    ensures DecodeEntries(|ks|, EncodeEntries(o, ks) + rest) == Good(Part(o.entries, ks), rest)
    decreases |ks|
  {
    hide Decode, DecodeEntries, DecodeItems, Encode, EncodeEntries, EncodeItems, PutHead, GetHead;
    hide ReadsBack, Part, Below;
    if ks == [] {
      NoEntries(o, rest);
    } else {
      FirstIsNew(ks);
      EntriesRoundTrip(o, ks[1..], rest);
      EntriesStep(o, ks, rest, EncodeEntries(o, ks[1..]) + rest, EncodeEntries(o, ks) + rest);
    }
  }

  lemma EntriesStep(o: Obj, ks: seq<Bytes>, rest: Bytes, u: Bytes, s: Bytes)
    requires Typed(o) && o.Map? && ks != [] && ks[0] !in ks[1..] && forall k :: k in ks ==> k in o.entries
    requires |ks[0]| < TWO32 && ReadsBack(o.entries[ks[0]])
    requires u == EncodeEntries(o, ks[1..]) + rest && s == EncodeEntries(o, ks) + rest
    requires DecodeEntries(|ks| - 1, u) == Good(Part(o.entries, ks[1..]), rest)
    ensures DecodeEntries(|ks|, s) == Good(Part(o.entries, ks), rest)
  {
    hide Decode, DecodeEntries, DecodeItems, Encode, EncodeEntries, EncodeItems, PutHead, GetHead;
    var v := o.entries[ks[0]];
    EntryReads(v, u);
    KeyReads(o, ks, rest, Encode(v) + u);
    EntriesJoin(|ks|, s, o.entries, ks, Encode(v) + u, u, rest);
  }

  lemma NoEntries(o: Obj, rest: Bytes)
    requires Typed(o) && o.Map?
    ensures DecodeEntries(0, EncodeEntries(o, []) + rest) == Good(Part(o.entries, []), rest)
  {
    assert EncodeEntries(o, []) + rest == rest;
  }

  lemma KeyReads(o: Obj, ks: seq<Bytes>, rest: Bytes, t: Bytes)
    requires Typed(o) && o.Map? && ks != [] && |ks[0]| < TWO32 && forall k :: k in ks ==> k in o.entries
    requires t == Encode(o.entries[ks[0]]) + (EncodeEntries(o, ks[1..]) + rest)
    ensures Decode(EncodeEntries(o, ks) + rest) == Good(Str(ks[0]), t)
  {
    EntriesUnfold(o, ks, rest);
    StrRoundTrip(ks[0], t);
  }

  lemma EntryReads(v: Obj, t: Bytes)
    requires Typed(v) && ReadsBack(v)
    ensures Decode(Encode(v) + t) == Good(v, t)
  {
  }

  lemma EntriesJoin(n: nat, s: Bytes, m: map<Bytes, Obj>, ks: seq<Bytes>, t: Bytes, u: Bytes, rest: Bytes)
    requires n == |ks| > 0 && (forall k :: k in ks ==> k in m) && ks[0] !in ks[1..]
    requires Decode(s) == Good(Str(ks[0]), t) && Decode(t) == Good(m[ks[0]], u)
    requires DecodeEntries(n - 1, u) == Good(Part(m, ks[1..]), rest)
    ensures DecodeEntries(n, s) == Good(Part(m, ks), rest)
  {
    DecodeEntriesStep(n, s);
    PartStep(m, ks);
  }

  lemma EntriesUnfold(o: Obj, ks: seq<Bytes>, rest: Bytes)
    requires Typed(o) && o.Map? && ks != [] && forall k :: k in ks ==> k in o.entries
    ensures EncodeEntries(o, ks) + rest ==
            PutHead(HStr(|ks[0]|)) + ks[0] + (Encode(o.entries[ks[0]]) + (EncodeEntries(o, ks[1..]) + rest))
  {
  }

  lemma FirstIsNew(ks: seq<Bytes>)
    requires Ascending(ks) && ks != []
    ensures ks[0] !in ks[1..] && Ascending(ks[1..])
  {
    OthersAscend(ks);
  }

  /** Two objects have the same encoding only if they are the same object. */
  lemma EncodingIsInjective(a: Obj, b: Obj)
    requires Typed(a) && Fits(a) && Typed(b) && Fits(b)
    requires Encode(a) == Encode(b)
    ensures a == b
  {
    RoundTrip(a, []);
    RoundTrip(b, []);
  }

  /** No encoding is a proper prefix of another, so a stream of them cuts in one way. */
  lemma EncodingIsPrefixFree(a: Obj, b: Obj, x: Bytes, y: Bytes)
    requires Typed(a) && Fits(a) && Typed(b) && Fits(b)
    requires Encode(a) + x == Encode(b) + y
    ensures a == b && x == y
  {
    RoundTrip(a, x);
    RoundTrip(b, y);
  }

  // ---- streams of messages ----

  ghost function EncodeAll(os: seq<Obj>): Bytes
    requires forall i :: 0 <= i < |os| ==> Typed(os[i])
  {
    if os == [] then [] else Encode(os[0]) + EncodeAll(os[1..])
  }

  function DecodeAll(s: Bytes): Parsed<seq<Obj>>
    decreases |s|
  {
    if s == [] then Good([], []) else
    var first := Decode(s);
    if first.Bad? then Bad else
    var others := DecodeAll(first.rest);
    if others.Bad? then Bad else Good([first.value] + others.value, [])
  }

  lemma {:induction false} StreamRoundTrip(os: seq<Obj>)
    requires forall i :: 0 <= i < |os| ==> Typed(os[i]) && Fits(os[i])
    ensures DecodeAll(EncodeAll(os)) == Good(os, [])
  {
    if os != [] {
      RoundTrip(os[0], EncodeAll(os[1..]));
      StreamRoundTrip(os[1..]);
      StreamStep(os, EncodeAll(os), EncodeAll(os[1..]));
    }
  }

  lemma StreamStep(os: seq<Obj>, s: Bytes, t: Bytes)
    requires os != [] && Decode(s) == Good(os[0], t) && DecodeAll(t) == Good(os[1..], [])
    ensures DecodeAll(s) == Good(os, [])
  {
    assert os == [os[0]] + os[1..];
  }

  // ---- exactly when the round trip works ----

  /** The round trip works exactly when every length is below 2^32. */
  lemma RoundTripExactly(o: Obj, rest: Bytes)
    requires Typed(o)
    ensures Decode(Encode(o) + rest) == Good(o, rest) <==> Fits(o)
  {
    if Fits(o) {
      RoundTrip(o, rest);
    } else if Decode(Encode(o) + rest) == Good(o, rest) {
      ReadBackFits(o, rest);
    }
  }

  lemma {:induction false} ReadBackFits(o: Obj, rest: Bytes)
    requires Typed(o)
    requires Decode(Encode(o) + rest).Good? && Decode(Encode(o) + rest).value == o
    ensures Fits(o)
    decreases o, 2
  {
    match o
    case Str(s) => StrDecodes(s, rest);
    case Arr(_) => ArrReadBackFits(o, rest);
    case Map(_) => MapReadBackFits(o, rest);
    case _ =>
  }

  lemma {:induction false} ArrReadBackFits(o: Obj, rest: Bytes)
    requires Typed(o) && o.Arr?
    requires Decode(Encode(o) + rest).Good? && Decode(Encode(o) + rest).value == o
    ensures Fits(o)
    decreases o, 1
  {
    ArrDecodes(o, rest);
    assert o.items[0..] == o.items;
    ItemsReadBackFit(o, 0, |o.items|, rest);
  }

  lemma {:induction false} MapReadBackFits(o: Obj, rest: Bytes)
    requires Typed(o) && o.Map?
    requires Decode(Encode(o) + rest).Good? && Decode(Encode(o) + rest).value == o
    ensures Fits(o)
    decreases o, 1
  {
    var ks := SortedKeys(o.entries.Keys);
    MapDecodes(o, rest);
    AllOf(o.entries, ks);
    EntriesReadBackFit(o, ks, rest);
  }

  lemma {:induction false} ItemsReadBackFit(o: Obj, from: nat, n: nat, rest: Bytes)
    requires Typed(o) && o.Arr? && from + n == |o.items|
    requires var r := DecodeItems(n, EncodeItems(o, from) + rest);
      r.Good? && r.value == o.items[from..]
    ensures forall i :: from <= i < |o.items| ==> Fits(o.items[i])
    decreases o, 0, n
  {
    if n > 0 {
      var tail := EncodeItems(o, from + 1) + rest;
      ItemsSplit(n, EncodeItems(o, from) + rest, o.items, from);
      ItemsUnfold(o, from, rest);
      ReadBackFits(o.items[from], tail);
      RoundTrip(o.items[from], tail);
      ItemsReadBackFit(o, from + 1, n - 1, rest);
    }
  }

  /** An oversized key would be read back as a proper prefix of itself, which sorts
      before it: but the key is the least one still to come. */
  lemma {:induction false} EntriesReadBackFit(o: Obj, ks: seq<Bytes>, rest: Bytes)
    requires Typed(o) && o.Map? && Ascending(ks) && forall k :: k in ks ==> k in o.entries
    requires var r := DecodeEntries(|ks|, EncodeEntries(o, ks) + rest);
      r.Good? && r.value == Part(o.entries, ks)
    ensures forall k :: k in ks ==> |k| < TWO32 && Fits(o.entries[k])
    decreases o, 0, |ks|
  {
    hide Decode, DecodeEntries, DecodeItems, Encode, EncodeEntries, EncodeItems, PutHead, GetHead;
    if ks != [] {
      var k, v := ks[0], o.entries[ks[0]];
      var tail := EncodeEntries(o, ks[1..]) + rest;
      FirstIsNew(ks);
      FirstReadBack(o, ks, rest);
      ReadBackFits(v, tail);
      RoundTrip(v, tail);
      EntriesReadBackFit(o, ks[1..], rest);
    }
  }

  /** If the entries from `ks` on are read back right, the first key is not oversized,
      its value is read back right, and so are the entries after it. */
  lemma FirstReadBack(o: Obj, ks: seq<Bytes>, rest: Bytes)
    requires Typed(o) && o.Map? && Ascending(ks) && ks != [] && forall k :: k in ks ==> k in o.entries
    requires var r := DecodeEntries(|ks|, EncodeEntries(o, ks) + rest);
      r.Good? && r.value == Part(o.entries, ks)
    ensures |ks[0]| < TWO32
    ensures var v := Decode(Encode(o.entries[ks[0]]) + (EncodeEntries(o, ks[1..]) + rest));
      && v.Good? && v.value == o.entries[ks[0]]
      && var r := DecodeEntries(|ks| - 1, v.rest); r.Good? && r.value == Part(o.entries, ks[1..])
  {
    var k := ks[0];
    var t := Encode(o.entries[k]) + (EncodeEntries(o, ks[1..]) + rest);
    var s := PutHead(HStr(|k|)) + k + t;
    EntriesUnfold(o, ks, rest);
    DecodeEntriesStep(|ks|, s);
    var others := DecodeEntries(|ks| - 1, Decode(Decode(s).rest).rest);
    assert Decode(s).value.s in Part(o.entries, ks);
    KeyReadBackFits(k, t, ks);
    StrRoundTrip(k, t);
    FirstIsNew(ks);
    PartStep(o.entries, ks);
    WithoutFirst(others.value, Part(o.entries, ks[1..]), k, Decode(t).value, o.entries[k]);
  }

  lemma KeyReadBackFits(k: Bytes, t: Bytes, ks: seq<Bytes>)
    requires Ascending(ks) && ks != [] && ks[0] == k
    requires var r := Decode(PutHead(HStr(|k|)) + k + t); r.Good? && r.value.Str? && r.value.s in ks
    ensures |k| < TWO32
  {
    StrDecodes(k, t);
    if |k| >= TWO32 {
      ShortKey(k, t, |k| % TWO32, ks);
    }
  }

  lemma ShortKey(k: Bytes, t: Bytes, n: nat, ks: seq<Bytes>)
    requires Ascending(ks) && ks != [] && ks[0] == k && n < |k|
    ensures (k + t)[..n] !in ks
  {
    var short := (k + t)[..n];
    assert short == k[..n];
    PrefixBelow(short, k);
    BelowTotal(short, k);
    forall i | 0 <= i < |ks| ensures ks[i] != short {
      assert i == 0 || Below(k, ks[i]);
    }
  }

  lemma WithoutFirst(m: map<Bytes, Obj>, n: map<Bytes, Obj>, k: Bytes, v: Obj, u: Obj)
    requires k !in m && k !in n && m[k := v] == n[k := u]
    ensures m == n && v == u
  {
    assert m == m[k := v] - {k} && n == n[k := u] - {k};
    assert v == m[k := v][k];
  }
}
