/** The encoder itself (internal/logging/msgpack.go and the message loop of
    internal/logging/exporter.go): every function appends to a shared buffer. Each is
    proved to append exactly the bytes of the specification. */
module MsgPackWriter {
  import opened Seqs
  import opened Bytes
  import opened MsgPack
  import opened MsgPackTheorems

  type int64 = x: int | -0x8000_0000_0000_0000 <= x < 0x8000_0000_0000_0000
  type uint64 = x: int | 0 <= x < 0x1_0000_0000_0000_0000

  /** The dynamic types packValue tells apart. `GoInt` stands for the signed integer types,
      `GoUint` for uint, uint64 and uint32, and `GoOther` for everything the encoder has
      no case for, uint8 and uint16 included; floats are given by their IEEE 754 bits as
      a float64. */
  datatype GoValue =
    | GoNil
    | GoBool(b: bool)
    | GoString(s: Bytes)
    | GoInt(i: int64)
    | GoUint(u: uint64)
    | GoFloat(bits: uint64)
    | GoMap(m: map<Bytes, GoValue>)
    | GoSlice(items: seq<GoValue>)
    | GoOther

  /** The MessagePack object a Go value is written as: the integer types collapse, and
      an unsupported value becomes nil. */
  ghost function Meaning(v: GoValue): (o: Obj)
    ensures Typed(o)
  {
    match v
    case GoNil => Nil
    case GoBool(b) => Bool(b)
    case GoString(s) => Str(s)
    case GoInt(i) => Int(i)
    case GoUint(u) => Int(u)
    case GoFloat(bits) => Float(bits)
    case GoMap(m) => Map(map k | k in m :: Meaning(m[k]))
    case GoSlice(items) => Arr(seq(|items|, i requires 0 <= i < |items| => Meaning(items[i])))
    case GoOther => Nil
  }

  // ---- what a reader is meant to get ----

  /** `o` is what the Go value says, type by type. */
  ghost predicate Same(o: Obj, v: GoValue)
    decreases v
  {
    match v
    case GoNil => o == Nil
    case GoBool(b) => o == Bool(b)
    case GoString(s) => o == Str(s)
    case GoInt(i) => o == Int(i)
    case GoUint(u) => o == Int(u)
    case GoFloat(bits) => o == Float(bits)
    case GoMap(m) => o.Map? && o.entries.Keys == m.Keys && forall k :: k in m ==> Same(o.entries[k], m[k])
    case GoSlice(items) =>
      o.Arr? && |o.items| == |items| && forall i :: 0 <= i < |items| ==> Same(o.items[i], items[i])
    case GoOther => o == Nil
  }

  /** No string, map or slice in the value has 2^32 elements or more. */
  ghost predicate GoFits(v: GoValue)
    decreases v
  {
    match v
    case GoString(s) => |s| < TWO32
    case GoMap(m) => |m| < TWO32 && forall k :: k in m ==> |k| < TWO32 && GoFits(m[k])
    case GoSlice(items) => |items| < TWO32 && forall i :: 0 <= i < |items| ==> GoFits(items[i])
    case _ => true
  }

  /** Whoever decodes `s`, whatever follows it, reads the value and stops right after it. */
  ghost predicate ReadAs(s: Bytes, v: GoValue) {
    forall rest: Bytes :: Read(Decode(s + rest), rest, v)
  }

  ghost predicate Read(r: Parsed<Obj>, rest: Bytes, v: GoValue) {
    r.Good? && r.rest == rest && Same(r.value, v)
  }

  /** The relation holds of one object only, and it is what the encoder writes. */
  lemma {:induction false} MeaningIsSame(v: GoValue)
    ensures Same(Meaning(v), v)
    decreases v
  {
    match v
    case GoMap(m) => forall k | k in m ensures Same(Meaning(m[k]), m[k]) { MeaningIsSame(m[k]); }
    case GoSlice(items) =>
      forall i | 0 <= i < |items| ensures Same(Meaning(items[i]), items[i]) { MeaningIsSame(items[i]); }
    case _ =>
  }

  lemma {:induction false} SameIsMeaning(o: Obj, v: GoValue)
    requires Same(o, v)
    ensures o == Meaning(v)
    decreases v
  {
    match v
    case GoMap(m) =>
      forall k | k in m ensures o.entries[k] == Meaning(m[k]) { SameIsMeaning(o.entries[k], m[k]); }
      assert o.entries == map k | k in m :: Meaning(m[k]);
    case GoSlice(items) =>
      forall i | 0 <= i < |items| ensures o.items[i] == Meaning(items[i]) { SameIsMeaning(o.items[i], items[i]); }
      assert o.items == seq(|items|, i requires 0 <= i < |items| => Meaning(items[i]));
    case _ =>
  }

  lemma MapFits(m: map<Bytes, GoValue>, o: Obj)
    requires o.Map? && o.entries.Keys == m.Keys && |o.entries| == |m|
    requires forall k :: k in m ==> (GoFits(m[k]) <==> Fits(o.entries[k]))
    ensures GoFits(GoMap(m)) <==> Fits(o)
  {
  }

  lemma SliceFits(items: seq<GoValue>, o: Obj)
    requires o.Arr? && |o.items| == |items|
    requires forall i :: 0 <= i < |items| ==> (GoFits(items[i]) <==> Fits(o.items[i]))
    ensures GoFits(GoSlice(items)) <==> Fits(o)
  {
  }

  lemma {:induction false} MeaningFits(v: GoValue)
    ensures GoFits(v) <==> Fits(Meaning(v))
    decreases v
  {
    match v
    case GoMap(m) =>
      hide GoFits, Fits;
      MeaningKeys(v);
      forall k | k in m ensures GoFits(m[k]) <==> Fits(Meaning(v).entries[k]) { MeaningFits(m[k]); }
      MapFits(m, Meaning(v));
    case GoSlice(items) =>
      hide GoFits, Fits;
      forall i | 0 <= i < |items| ensures GoFits(items[i]) <==> Fits(Meaning(v).items[i]) { MeaningFits(items[i]); }
      SliceFits(items, Meaning(v));
    case _ =>
  }

  lemma EncodedIsRead(v: GoValue)
    requires GoFits(v)
    ensures ReadAs(Encode(Meaning(v)), v)
  {
    hide Decode, Encode, Meaning, Same, Fits, GoFits;
    MeaningFits(v);
    MeaningIsSame(v);
    forall rest: Bytes ensures Read(Decode(Encode(Meaning(v)) + rest), rest, v) {
      RoundTrip(Meaning(v), rest);
    }
  }

  class Buffer {
    var data: Bytes

    constructor ()
      ensures data == []
    {
      data := [];
    }

    method WriteByte(b: byte)
      modifies this
      ensures data == old(data) + [b]
    {
      data := data + [b];
    }

    method Write(s: Bytes)
      modifies this
      ensures data == old(data) + s
    {
      data := data + s;
    }

    /** A marker and a big-endian integer of the given width. */
    method WriteWide(marker: byte, v: nat, w: nat)
      modifies this
      ensures data == old(data) + ([marker] + BigEndian(v, w))
    {
      WriteByte(marker);
      Write(BigEndian(v, w));
    }
  }

  method PackUint(buf: Buffer, v: uint64)
    modifies buf
    ensures buf.data == old(buf.data) + PutUint(v)
  {
    hide BigEndian;
    if v < 128 {
      buf.WriteByte(v);
    } else if v <= 0xff {
      buf.WriteWide(0xcc, v, 1);
    } else if v <= 0xffff {
      buf.WriteWide(0xcd, v, 2);
    } else if v <= 0xffff_ffff {
      buf.WriteWide(0xce, v, 4);
    } else {
      buf.WriteWide(0xcf, v, 8);
    }
  }

  method PackInt(buf: Buffer, v: int64)
    modifies buf
    ensures buf.data == old(buf.data) + PutInt(v)
  {
    hide BigEndian;
    if v >= 0 {
      PackUint(buf, v);
    } else if v >= -32 {
      buf.WriteByte(v + 0x100);
    } else if v >= -0x80 {
      buf.WriteWide(0xd0, v + 0x100, 1);
    } else if v >= -0x8000 {
      buf.WriteWide(0xd1, v + 0x1_0000, 2);
    } else if v >= -0x8000_0000 {
      buf.WriteWide(0xd2, v + 0x1_0000_0000, 4);
    } else {
      buf.WriteWide(0xd3, v + 0x1_0000_0000_0000_0000, 8);
    }
  }

  method PackArrayHeader(buf: Buffer, n: nat)
    modifies buf
    ensures buf.data == old(buf.data) + PutHead(HArr(n))
  {
    hide BigEndian;
    if n < 16 {
      buf.WriteByte(0x90 + n);
    } else if n <= 0xffff {
      buf.WriteWide(0xdc, n, 2);
    } else {
      buf.WriteWide(0xdd, n, 4);
    }
  }

  method PackMapHeader(buf: Buffer, n: nat)
    modifies buf
    ensures buf.data == old(buf.data) + PutHead(HMap(n))
  {
    hide BigEndian;
    if n < 16 {
      buf.WriteByte(0x80 + n);
    } else if n <= 0xffff {
      buf.WriteWide(0xde, n, 2);
    } else {
      buf.WriteWide(0xdf, n, 4);
    }
  }

  method PackString(buf: Buffer, s: Bytes)
    modifies buf
    ensures buf.data == old(buf.data) + (PutHead(HStr(|s|)) + s)
  {
    hide BigEndian;
    var n := |s|;
    if n < 32 {
      buf.WriteByte(0xa0 + n);
    } else if n <= 0xff {
      buf.WriteWide(0xd9, n, 1);
    } else if n <= 0xffff {
      buf.WriteWide(0xda, n, 2);
    } else {
      buf.WriteWide(0xdb, n, 4);
    }
    assert buf.data == old(buf.data) + PutHead(HStr(|s|));
    buf.Write(s);
    Regroup(old(buf.data), PutHead(HStr(|s|)), s);
  }

  method InsertSorted(s: seq<Bytes>, k: Bytes) returns (t: seq<Bytes>)
    requires Ascending(s) && k !in s
    ensures Ascending(t) && forall x :: x in t <==> x in s || x == k
  {
    var i := 0;
    while i < |s| && Below(s[i], k)
      invariant 0 <= i <= |s|
      invariant forall j :: 0 <= j < i ==> Below(s[j], k)
    {
      i := i + 1;
    }
    t := s[..i] + [k] + s[i..];
    InsertAscends(s, k, i);
  }

  lemma InsertAscends(s: seq<Bytes>, k: Bytes, i: nat)
    requires Ascending(s) && k !in s && i <= |s|
    requires forall j :: 0 <= j < i ==> Below(s[j], k)
    requires i < |s| ==> !Below(s[i], k)
    ensures var t := s[..i] + [k] + s[i..];
      Ascending(t) && forall x :: x in t <==> x in s || x == k
  {
    hide Below;
    var t := s[..i] + [k] + s[i..];
    forall j | i <= j < |s| ensures Below(k, s[j]) {
      BelowTotal(s[i], k);
      if i < j {
        BelowTransitive(k, s[i], s[j]);
      }
    }
    assert s == s[..i] + s[i..];
  }

  /** sort.Strings on distinct keys: whatever order they come in, the result is the
      one ascending sequence of them. */
  method SortStrings(keys: seq<Bytes>) returns (sorted: seq<Bytes>)
    requires forall i, j :: 0 <= i < j < |keys| ==> keys[i] != keys[j]
    ensures sorted == SortedKeys(set k | k in keys)
    ensures forall x :: x in sorted <==> x in keys
    ensures forall i, j :: 0 <= i < j < |sorted| ==> Smaller(sorted[i], sorted[j])
  {
    sorted := [];
    var i := 0;
    while i < |keys|
      invariant 0 <= i <= |keys|
      invariant Ascending(sorted) && forall x :: x in sorted <==> x in keys[..i]
    {
      sorted := InsertSorted(sorted, keys[i]);
      i := i + 1;
    }
    assert keys[..i] == keys;
    AscendingIsSorted(sorted, set k | k in keys);
    forall i, j | 0 <= i < j < |sorted| ensures Smaller(sorted[i], sorted[j]) {
      BelowMeans(sorted[i], sorted[j]);
    }
  }

  /** The keys of a map, in whatever order the runtime iterates over it. */
  method KeysInSomeOrder(m: map<Bytes, GoValue>) returns (keys: seq<Bytes>)
    ensures forall i, j :: 0 <= i < j < |keys| ==> keys[i] != keys[j]
    ensures (set k | k in keys) == m.Keys
  {
    keys := [];
    var todo := m.Keys;
    while todo != {}
      invariant todo <= m.Keys
      invariant forall i, j :: 0 <= i < j < |keys| ==> keys[i] != keys[j]
      invariant forall k :: k in keys <==> k in m.Keys - todo
      decreases |todo|
    {
      var k :| k in todo;
      assert forall i :: 0 <= i < |keys| ==> keys[i] in keys;
      keys := keys + [k];
      todo := todo - {k};
    }
  }

  /** packValue. The iteration order of maps is left open, so the postcondition also
      says that equal values give equal bytes whatever that order is. */
  method PackValue(buf: Buffer, v: GoValue)
    modifies buf
    ensures buf.data == old(buf.data) + Encode(Meaning(v))
    ensures GoFits(v) ==> ReadAs(buf.data[|old(buf.data)|..], v)
    decreases v, 2
  {
    PackByType(buf, v);
    assert buf.data[|old(buf.data)|..] == Encode(Meaning(v));
    if GoFits(v) {
      EncodedIsRead(v);
    }
  }

  /** The type switch of packValue. */
  method PackByType(buf: Buffer, v: GoValue)
    modifies buf
    ensures buf.data == old(buf.data) + Encode(Meaning(v))
    decreases v, 2
  {
    match v
    case GoNil => buf.WriteByte(0xc0);
    case GoBool(b) =>
      if b {
        buf.WriteByte(0xc3);
      } else {
        buf.WriteByte(0xc2);
      }
    case GoString(s) => PackString(buf, s);
    case GoInt(i) => PackInt(buf, i);
    case GoUint(u) => PackUint(buf, u);
    case GoFloat(bits) => buf.WriteWide(0xcb, bits, 8);
    case GoMap(_) => PackMap(buf, v);
    case GoSlice(_) => PackSlice(buf, v);
    case GoOther => buf.WriteByte(0xc0);
  }

  method PackSlice(buf: Buffer, v: GoValue)
    requires v.GoSlice?
    modifies buf
    ensures buf.data == old(buf.data) + Encode(Meaning(v))
    decreases v, 1
  {
    ghost var o := Meaning(v);
    ghost var goal := buf.data + Encode(o);
    PackArrayHeader(buf, |v.items|);
    Regroup(old(buf.data), PutHead(HArr(|v.items|)), EncodeItems(o, 0));
    var i := 0;
    while i < |v.items|
      invariant 0 <= i <= |v.items|
      invariant buf.data + EncodeItems(o, i) == goal
    {
      ghost var before := buf.data;
      PackByType(buf, v.items[i]);
      Regroup(before, Encode(o.items[i]), EncodeItems(o, i + 1));
      i := i + 1;
    }
    NothingMore(buf.data);
  }

  lemma NothingMore(s: Bytes)
    ensures s + [] == s
  {
  }

  method PackMap(buf: Buffer, v: GoValue)
    requires v.GoMap?
    modifies buf
    ensures buf.data == old(buf.data) + Encode(Meaning(v))
    decreases v, 1
  {
    PackMapHeader(buf, |v.m|);
    var keys := KeysInSomeOrder(v.m);
    var sorted := SortStrings(keys);
    MapBytes(v, sorted);
    PackEntries(buf, v, sorted);
    Regroup(old(buf.data), PutHead(HMap(|v.m|)), EncodeEntries(Meaning(v), sorted));
  }

  lemma MapBytes(v: GoValue, sorted: seq<Bytes>)
    requires v.GoMap? && sorted == SortedKeys(v.m.Keys)
    ensures forall k :: k in sorted ==> k in v.m && k in Meaning(v).entries
    ensures Encode(Meaning(v)) == PutHead(HMap(|v.m|)) + EncodeEntries(Meaning(v), sorted)
  {
    MeaningKeys(v);
  }

  method PackEntries(buf: Buffer, v: GoValue, sorted: seq<Bytes>)
    requires v.GoMap? && forall k :: k in sorted ==> k in v.m
    modifies buf
    ensures forall k :: k in sorted ==> k in Meaning(v).entries
    ensures buf.data == old(buf.data) + EncodeEntries(Meaning(v), sorted)
    decreases v, 0
  {
    ghost var o := Meaning(v);
    MeaningKeys(v);
    ghost var goal := buf.data + EncodeEntries(o, sorted);
    assert sorted[0..] == sorted;
    var i := 0;
    while i < |sorted|
      invariant 0 <= i <= |sorted|
      invariant buf.data + EncodeEntries(o, sorted[i..]) == goal
    {
      var k := sorted[i];
      ghost var before := buf.data;
      PackString(buf, k);
      PackByType(buf, v.m[k]);
      assert sorted[i..][1..] == sorted[i + 1..];
      EntryAppended(before, PutHead(HStr(|k|)), k, Encode(o.entries[k]), EncodeEntries(o, sorted[i + 1..]));
      i := i + 1;
    }
    NothingMore(buf.data);
  }

  lemma MeaningKeys(v: GoValue)
    requires v.GoMap?
    ensures Meaning(v).entries.Keys == v.m.Keys && |Meaning(v).entries| == |v.m|
  {
  }

  lemma EntryAppended(before: Bytes, h: Bytes, k: Bytes, v: Bytes, after: Bytes)
    ensures before + (h + k + v + after) == before + (h + k) + v + after
  {
  }

  /** packForwardMessage: the array [tag, time, record] of the forward protocol's
      Message mode. */
  ghost function ForwardMessage(tag: Bytes, time: int64, record: GoValue): (o: Obj)
    ensures Typed(o)
  {
    Arr([Str(tag), Int(time), Meaning(record)])
  }

  method PackForwardMessage(buf: Buffer, tag: Bytes, time: int64, record: GoValue)
    modifies buf
    ensures buf.data == old(buf.data) + Encode(ForwardMessage(tag, time, record))
  {
    PackArrayHeader(buf, 3);
    PackString(buf, tag);
    PackInt(buf, time);
    PackValue(buf, record);
    ForwardBytes(tag, time, record);
    FourParts(old(buf.data), PutHead(HArr(3)), PutHead(HStr(|tag|)) + tag, PutInt(time), Encode(Meaning(record)));
  }

  lemma IntBytes(n: int64)
    ensures Encode(Int(n)) == PutInt(n)
  {
  }

  lemma ForwardBytes(tag: Bytes, time: int64, record: GoValue)
    ensures Encode(ForwardMessage(tag, time, record)) ==
            PutHead(HArr(3)) + ((PutHead(HStr(|tag|)) + tag) + (PutInt(time) + Encode(Meaning(record))))
  {
    hide PutHead, PutInt, Meaning;
    IntBytes(time);
    var o := ForwardMessage(tag, time, record);
    var r := Encode(Meaning(record));
    assert EncodeItems(o, 3) == [];
    NothingMore(r);
    assert EncodeItems(o, 2) == r + EncodeItems(o, 3);
    assert EncodeItems(o, 1) == PutInt(time) + EncodeItems(o, 2);
    assert EncodeItems(o, 0) == (PutHead(HStr(|tag|)) + tag) + EncodeItems(o, 1);
  }

  lemma FourParts(before: Bytes, a: Bytes, b: Bytes, c: Bytes, d: Bytes)
    ensures before + (a + (b + (c + d))) == before + a + b + c + d
  {
  }

  datatype Entry = Entry(time: int64, record: GoValue)

  ghost function Messages(tag: Bytes, entries: seq<Entry>): (os: seq<Obj>)
    ensures |os| == |entries|
    ensures forall i :: 0 <= i < |os| ==> Typed(os[i])
  {
    seq(|entries|, i requires 0 <= i < |entries| => ForwardMessage(tag, entries[i].time, entries[i].record))
  }

  /** `o` is the message of one entry: the array of tag, time and record. */
  ghost predicate MessageFor(o: Obj, tag: Bytes, e: Entry) {
    o.Arr? && |o.items| == 3 && o.items[0] == Str(tag) && o.items[1] == Int(e.time) && Same(o.items[2], e.record)
  }

  ghost predicate MessagesFor(os: seq<Obj>, tag: Bytes, entries: seq<Entry>) {
    |os| == |entries| && forall i :: 0 <= i < |os| ==> MessageFor(os[i], tag, entries[i])
  }

  ghost predicate EntriesFit(tag: Bytes, entries: seq<Entry>) {
    forall i :: 0 <= i < |entries| ==> EntryFits(tag, entries[i])
  }

  ghost predicate EntryFits(tag: Bytes, e: Entry) {
    |tag| < TWO32 && GoFits(e.record)
  }

  lemma MessageIsFor(tag: Bytes, e: Entry)
    ensures MessageFor(ForwardMessage(tag, e.time, e.record), tag, e)
    ensures EntryFits(tag, e) ==> Fits(ForwardMessage(tag, e.time, e.record))
  {
    MeaningIsSame(e.record);
    MeaningFits(e.record);
  }

  lemma MessagesAreFor(tag: Bytes, entries: seq<Entry>)
    ensures MessagesFor(Messages(tag, entries), tag, entries)
    ensures EntriesFit(tag, entries) ==> forall i :: 0 <= i < |entries| ==> Fits(Messages(tag, entries)[i])
  {
    forall i | 0 <= i < |entries|
      ensures MessageFor(Messages(tag, entries)[i], tag, entries[i])
      ensures EntryFits(tag, entries[i]) ==> Fits(Messages(tag, entries)[i])
    {
      MessageIsFor(tag, entries[i]);
    }
  }

  lemma PayloadIsRead(tag: Bytes, entries: seq<Entry>)
    requires EntriesFit(tag, entries)
    ensures DecodeAll(EncodeAll(Messages(tag, entries))) == Good(Messages(tag, entries), [])
    ensures MessagesFor(Messages(tag, entries), tag, entries)
  {
    hide EntryFits, Fits, MessageFor;
    MessagesAreFor(tag, entries);
    StreamRoundTrip(Messages(tag, entries));
  }

  /** forward: what goes out on the connection is read, message by message, as the entries
      of the batch, as long as no length in it reaches 2^32. */
  method Forward(tag: Bytes, entries: seq<Entry>) returns (sent: Bytes)
    ensures sent == EncodeAll(Messages(tag, entries))
    ensures EntriesFit(tag, entries) ==>
      var r := DecodeAll(sent); r.Good? && r.rest == [] && MessagesFor(r.value, tag, entries)
  {
    var buf := new Buffer();
    ghost var os := Messages(tag, entries);
    var i := 0;
    assert os[0..] == os;
    while i < |entries|
      invariant 0 <= i <= |entries|
      invariant buf.data + EncodeAll(os[i..]) == EncodeAll(os)
    {
      ghost var before := buf.data;
      PackForwardMessage(buf, tag, entries[i].time, entries[i].record);
      assert os[i..][1..] == os[i + 1..];
      Regroup(before, Encode(os[i]), EncodeAll(os[i + 1..]));
      i := i + 1;
    }
    sent := buf.data;
    if EntriesFit(tag, entries) {
      PayloadIsRead(tag, entries);
    }
  }
}
