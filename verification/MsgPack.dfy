/** The MessagePack encoding of log records (internal/logging/msgpack.go), as a
    function, with the decoder of the "Formats" section of the MessagePack
    specification as its counterpart.

    A format is a head (the marker and what follows it up to the payload) and, for
    strings, arrays and maps, as many bytes or objects as the head says. */
module MsgPack {
  import opened Arithmetic
  import opened Bytes

  /** What a decoder reports. Map keys are strings here, as every record's are. */
  datatype Obj =
    | Nil
    | Bool(b: bool)
    | Int(n: int)
    | Float(bits: nat)
    | Str(s: Bytes)
    | Arr(items: seq<Obj>)
    | Map(entries: map<Bytes, Obj>)

  datatype Head =
    | HNil
    | HBool(b: bool)
    | HInt(n: int)
    | HFloat(bits: nat)
    | HStr(len: nat)
    | HArr(len: nat)
    | HMap(len: nat)

  const TWO32: nat := 0x1_0000_0000

  // ---- encoding ----

  function PutUint(v: nat): Bytes {
    if v < 128 then [v]
    else if v < 0x100 then [0xcc] + BigEndian(v, 1)
    else if v < 0x1_0000 then [0xcd] + BigEndian(v, 2)
    else if v < TWO32 then [0xce] + BigEndian(v, 4)
    else [0xcf] + BigEndian(v, 8)
  }

  /** Negative integers are written in two's complement. */
  function PutInt(n: int): Bytes
    requires -0x8000_0000_0000_0000 <= n
  {
    if n >= 0 then PutUint(n)
    else if n >= -32 then [n + 0x100]
    else if n >= -0x80 then [0xd0] + BigEndian(n + 0x100, 1)
    else if n >= -0x8000 then [0xd1] + BigEndian(n + 0x1_0000, 2)
    else if n >= -0x8000_0000 then [0xd2] + BigEndian(n + TWO32, 4)
    else [0xd3] + BigEndian(n + TWO64, 8)
  }

  /** The head of a format. Lengths of 2^32 and more are truncated, as the
      conversions in the last branches of the length headers do. */
  function PutHead(h: Head): Bytes
    requires h.HInt? ==> -0x8000_0000_0000_0000 <= h.n
  {
    match h
    case HNil => [0xc0]
    case HBool(b) => if b then [0xc3] else [0xc2]
    case HInt(n) => PutInt(n)
    case HFloat(bits) => [0xcb] + BigEndian(bits, 8)
    case HStr(n) =>
      if n < 32 then [0xa0 + n]
      else if n < 0x100 then [0xd9] + BigEndian(n, 1)
      else if n < 0x1_0000 then [0xda] + BigEndian(n, 2)
      else [0xdb] + BigEndian(n, 4)
    case HArr(n) =>
      if n < 16 then [0x90 + n]
      else if n < 0x1_0000 then [0xdc] + BigEndian(n, 2)
      else [0xdd] + BigEndian(n, 4)
    case HMap(n) =>
      if n < 16 then [0x80 + n]
      else if n < 0x1_0000 then [0xde] + BigEndian(n, 2)
      else [0xdf] + BigEndian(n, 4)
  }

  /** Integers and floats that a Go value can hold. */
  predicate Typed(o: Obj)
    decreases o, 1
  {
    match o
    case Int(n) => -0x8000_0000_0000_0000 <= n < TWO64
    case Float(bits) => bits < TWO64
    case Arr(items) => forall i :: 0 <= i < |items| ==> Typed(items[i])
    case Map(m) => forall k :: k in m ==> Typed(m[k])
    case _ => true
  }

  ghost function Encode(o: Obj): Bytes
    requires Typed(o)
    decreases o, 1
  {
    match o
    case Nil => PutHead(HNil)
    case Bool(b) => PutHead(HBool(b))
    case Int(n) => PutHead(HInt(n))
    case Float(bits) => PutHead(HFloat(bits))
    case Str(s) => PutHead(HStr(|s|)) + s
    case Arr(items) => PutHead(HArr(|items|)) + EncodeItems(o, 0)
    case Map(m) => PutHead(HMap(|m|)) + EncodeEntries(o, SortedKeys(m.Keys))
  }

  ghost function EncodeItems(o: Obj, from: nat): Bytes
    requires Typed(o) && o.Arr? && from <= |o.items|
    decreases o, 0, |o.items| - from
  {
    if from == |o.items| then [] else Encode(o.items[from]) + EncodeItems(o, from + 1)
  }

  ghost function EncodeEntries(o: Obj, ks: seq<Bytes>): Bytes
    requires Typed(o) && o.Map? && forall k :: k in ks ==> k in o.entries
    decreases o, 0, |ks|
  {
    if ks == [] then [] else
    PutHead(HStr(|ks[0]|)) + ks[0] + Encode(o.entries[ks[0]]) + EncodeEntries(o, ks[1..])
  }

  // ---- decoding, by the specification ----

  datatype Parsed<T> = Bad | Good(value: T, rest: Bytes)

  function GetUint(w: nat, s: Bytes): Parsed<nat> {
    if |s| < w then Bad else Good(FromBigEndian(s[..w]), s[w..])
  }

  function Signed(v: nat, w: nat): int {
    if v < Pow256(w) / 2 then v else v - Pow256(w)
  }

  function GetHead(s: Bytes): (r: Parsed<Head>)
    ensures r.Good? ==> |r.rest| < |s|
  {
    if s == [] then Bad else
    var c, t := s[0], s[1..];
    if c < 0x80 then Good(HInt(c), t)
    else if c < 0x90 then Good(HMap(c - 0x80), t)
    else if c < 0xa0 then Good(HArr(c - 0x90), t)
    else if c < 0xc0 then Good(HStr(c - 0xa0), t)
    else if c == 0xc0 then Good(HNil, t)
    else if c == 0xc2 then Good(HBool(false), t)
    else if c == 0xc3 then Good(HBool(true), t)
    else if c >= 0xe0 then Good(HInt((c as int) - 0x100), t)
    else
      var w := Width(c);
      var u := GetUint(w, t);
      if w == 0 || u.Bad? then Bad else Good(Wide(c, u.value), u.rest)
  }

  /** How many bytes of integer follow the marker; 0 for markers outside this
      subset (bin, ext, float32 and the unused one). */
  function Width(c: byte): nat {
    if c == 0xcb then 8
    else if 0xcc <= c <= 0xcf then [1, 2, 4, 8][c - 0xcc]
    else if 0xd0 <= c <= 0xd3 then [1, 2, 4, 8][c - 0xd0]
    else if 0xd9 <= c <= 0xdb then [1, 2, 4][c - 0xd9]
    else if 0xdc <= c <= 0xdd then [2, 4][c - 0xdc]
    else if 0xde <= c <= 0xdf then [2, 4][c - 0xde]
    else 0
  }

  function Wide(c: byte, v: nat): Head {
    if c == 0xcb then HFloat(v)
    else if c <= 0xcf then HInt(v)
    else if c <= 0xd3 then HInt(Signed(v, Width(c)))
    else if c <= 0xdb then HStr(v)
    else if c <= 0xdd then HArr(v)
    else HMap(v)
  }

  function Decode(s: Bytes): (r: Parsed<Obj>)
    ensures r.Good? ==> |r.rest| < |s|
    decreases |s|, 0
  {
    var h := GetHead(s);
    if h.Bad? then Bad else
    match h.value
    case HNil => Good(Nil, h.rest)
    case HBool(b) => Good(Bool(b), h.rest)
    case HInt(n) => Good(Int(n), h.rest)
    case HFloat(bits) => Good(Float(bits), h.rest)
    case HStr(n) => if |h.rest| < n then Bad else Good(Str(h.rest[..n]), h.rest[n..])
    case HArr(n) =>
      var items := DecodeItems(n, h.rest);
      if items.Bad? then Bad else Good(Arr(items.value), items.rest)
    case HMap(n) =>
      var entries := DecodeEntries(n, h.rest);
      if entries.Bad? then Bad else Good(Map(entries.value), entries.rest)
  }

  function DecodeItems(n: nat, s: Bytes): (r: Parsed<seq<Obj>>)
    ensures r.Good? ==> |r.rest| <= |s| && |r.value| == n
    decreases |s|, n + 1
  {
    if n == 0 then Good([], s) else
    var first := Decode(s);
    if first.Bad? then Bad else
    var others := DecodeItems(n - 1, first.rest);
    if others.Bad? then Bad else Good([first.value] + others.value, others.rest)
  }

  /** A map names each key once. */
  function DecodeEntries(n: nat, s: Bytes): (r: Parsed<map<Bytes, Obj>>)
    ensures r.Good? ==> |r.rest| <= |s| && |r.value| == n
    decreases |s|, n + 1
  {
    if n == 0 then Good(map[], s) else
    var key := Decode(s);
    if key.Bad? || !key.value.Str? then Bad else
    var value := Decode(key.rest);
    if value.Bad? then Bad else
    var others := DecodeEntries(n - 1, value.rest);
    if others.Bad? || key.value.s in others.value then Bad else
    assert others.value[key.value.s := value.value].Keys == others.value.Keys + {key.value.s};
    Good(others.value[key.value.s := value.value], others.rest)
  }

  // ---- heads ----

  predicate HeadFits(h: Head) {
    match h
    case HInt(n) => -0x8000_0000_0000_0000 <= n < TWO64
    case HFloat(bits) => bits < TWO64
    case HStr(n) => n < TWO32
    case HArr(n) => n < TWO32
    case HMap(n) => n < TWO32
    case _ => true
  }

  lemma Powers()
    ensures Pow256(1) == 0x100 && Pow256(2) == 0x1_0000 && Pow256(4) == TWO32 && Pow256(8) == TWO64
  {
    assert Pow256(3) == 0x100_0000;
    assert Pow256(6) == 0x1_0000_0000_0000;
  }

  lemma GetPutUint(v: nat, w: nat, rest: Bytes)
    ensures GetUint(w, BigEndian(v, w) + rest) == Good(v % Pow256(w), rest)
  {
    var s := BigEndian(v, w) + rest;
    assert s[..w] == BigEndian(v, w) && s[w..] == rest;
    BigEndianValue(v, w);
  }

  lemma GetNarrow(c: byte, rest: Bytes)
    ensures ([c] + rest)[0] == c && ([c] + rest)[1..] == rest
  {
  }

  lemma SmallRemainder(v: nat, d: nat)
    requires v < d
    ensures v % d == v
  {
  }

  lemma GetWide(c: byte, v: nat, rest: Bytes)
    requires 0xc3 < c < 0xe0 && Width(c) > 0
    ensures GetHead([c] + BigEndian(v, Width(c)) + rest) == Good(Wide(c, v % Pow256(Width(c))), rest)
  {
    var t := BigEndian(v, Width(c)) + rest;
    assert [c] + BigEndian(v, Width(c)) + rest == [c] + t;
    GetNarrow(c, t);
    GetPutUint(v, Width(c), rest);
  }

  lemma GetWideUint(c: byte, v: nat, rest: Bytes)
    requires 0xcb <= c <= 0xcf && v < Pow256(Width(c))
    ensures GetHead([c] + BigEndian(v, Width(c)) + rest) == Good(if c == 0xcb then HFloat(v) else HInt(v), rest)
  {
    SmallRemainder(v, Pow256(Width(c)));
    GetWide(c, v, rest);
  }

  lemma SignedNegative(n: int, w: nat, half: int)
    requires Pow256(w) == 2 * half && -half <= n < 0
    ensures Signed(n + Pow256(w), w) == n
  {
  }

  /** A negative integer in `Width(c)` bytes of two's complement. */
  lemma GetWideNegative(c: byte, w: nat, n: int, half: int, rest: Bytes)
    requires 0xd0 <= c <= 0xd3 && w == Width(c) && Pow256(w) == 2 * half && -half <= n < 0
    ensures GetHead([c] + BigEndian(n + 2 * half, w) + rest) == Good(HInt(n), rest)
  {
    hide BigEndian, GetUint;
    SmallRemainder(n + 2 * half, 2 * half);
    GetWide(c, n + 2 * half, rest);
    SignedNegative(n, w, half);
  }

  lemma GetPutUintHead(v: nat, rest: Bytes)
    requires v < TWO64
    ensures GetHead(PutUint(v) + rest) == Good(HInt(v), rest)
  {
    Powers();
    if v < 128 {
      GetNarrow(v, rest);
    } else {
      var c := if v < 0x100 then 0xcc else if v < 0x1_0000 then 0xcd else if v < TWO32 then 0xce else 0xcf;
      GetWideUint(c, v, rest);
    }
  }

  lemma GetPutIntHead(n: int, rest: Bytes)
    requires -0x8000_0000_0000_0000 <= n < 0
    ensures GetHead(PutInt(n) + rest) == Good(HInt(n), rest)
  {
    hide BigEndian, GetUint, Pow256;
    Powers();
    if n >= -32 {
      GetNarrow(n + 0x100, rest);
    } else if n >= -0x80 {
      GetWideNegative(0xd0, 1, n, 0x80, rest);
    } else if n >= -0x8000 {
      GetWideNegative(0xd1, 2, n, 0x8000, rest);
    } else if n >= -0x8000_0000 {
      GetWideNegative(0xd2, 4, n, 0x8000_0000, rest);
    } else {
      GetWideNegative(0xd3, 8, n, 0x8000_0000_0000_0000, rest);
    }
  }

  lemma GetPutStrHead(n: nat, rest: Bytes)
    ensures GetHead(PutHead(HStr(n)) + rest) == Good(HStr(n % TWO32), rest)
  {
    hide BigEndian, GetUint, Pow256;
    Powers();
    if n < 32 {
      GetNarrow(0xa0 + n, rest);
    } else {
      GetWide(if n < 0x100 then 0xd9 else if n < 0x1_0000 then 0xda else 0xdb, n, rest);
    }
  }

  lemma GetPutArrHead(n: nat, rest: Bytes)
    ensures GetHead(PutHead(HArr(n)) + rest) == Good(HArr(n % TWO32), rest)
  {
    Powers();
    if n < 16 {
      GetNarrow(0x90 + n, rest);
    } else {
      GetWide(if n < 0x1_0000 then 0xdc else 0xdd, n, rest);
    }
  }

  lemma GetPutMapHead(n: nat, rest: Bytes)
    ensures GetHead(PutHead(HMap(n)) + rest) == Good(HMap(n % TWO32), rest)
  {
    Powers();
    if n < 16 {
      GetNarrow(0x80 + n, rest);
    } else {
      GetWide(if n < 0x1_0000 then 0xde else 0xdf, n, rest);
    }
  }

  /** What a reader makes of a head: a length of 2^32 or more comes back modulo 2^32. */
  function AsRead(h: Head): Head {
    match h
    case HStr(n) => HStr(n % TWO32)
    case HArr(n) => HArr(n % TWO32)
    case HMap(n) => HMap(n % TWO32)
    case _ => h
  }

  lemma GetPutHead(h: Head, rest: Bytes)
    requires h.HInt? || h.HFloat? ==> HeadFits(h)
    ensures GetHead(PutHead(h) + rest) == Good(AsRead(h), rest)
  {
    match h
    case HNil => GetNarrow(0xc0, rest);
    case HBool(b) => GetNarrow(if b then 0xc3 else 0xc2, rest);
    case HInt(n) =>
      if n >= 0 {
        GetPutUintHead(n, rest);
      } else {
        GetPutIntHead(n, rest);
      }
    case HFloat(bits) =>
      Powers();
      GetWideUint(0xcb, bits, rest);
    case HStr(n) => GetPutStrHead(n, rest);
    case HArr(n) => GetPutArrHead(n, rest);
    case HMap(n) => GetPutMapHead(n, rest);
  }
}
