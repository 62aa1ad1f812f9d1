/** Bytes, big-endian integers and the byte-wise order of strings. */
module Bytes {
  import opened Arithmetic

  type byte = x: int | 0 <= x < 256
  type Bytes = seq<byte>

  function Pow256(w: nat): nat
    ensures Pow256(w) > 0
  {
    if w == 0 then 1 else 256 * Pow256(w - 1)
  }

  /** The low `w` bytes of `v`, most significant first: larger values are truncated,
      as a conversion to an unsigned integer of that width does. */
  function BigEndian(v: nat, w: nat): (s: Bytes)
    ensures |s| == w
  {
    if w == 0 then [] else BigEndian(v / 256, w - 1) + [v % 256]
  }

  function FromBigEndian(s: Bytes): (v: nat)
    ensures v < Pow256(|s|)
  {
    if s == [] then 0 else FromBigEndian(s[..|s| - 1]) * 256 + s[|s| - 1]
  }

  lemma {:induction false} BigEndianValue(v: nat, w: nat)
    ensures FromBigEndian(BigEndian(v, w)) == v % Pow256(w)
  {
    if w > 0 {
      var s := BigEndian(v, w);
      BigEndianValue(v / 256, w - 1);
      assert s[..w - 1] == BigEndian(v / 256, w - 1);
      ModDigits(v, Pow256(w - 1));
    }
  }

  lemma ModDigits(v: nat, p: nat)
    requires p > 0
    ensures v % (256 * p) == (v / 256 % p) * 256 + v % 256
  {
    var q := v / 256 / p;
    var r := v / 256 % p;
    assert v / 256 == q * p + r;
    assert v == 256 * (q * p + r) + v % 256;
    assert v == q * (256 * p) + (r * 256 + v % 256) by {
      assert 256 * (q * p) == q * (256 * p);
    }
    assert r * 256 + v % 256 < 256 * p;
    Remainder(v, 256 * p, q, r * 256 + v % 256);
  }

  // ---- byte-wise string order ----

  /** Go's string comparison: by bytes, a prefix before its extensions. */
  predicate Below(a: Bytes, b: Bytes) {
    b != [] && (a == [] || a[0] < b[0] || (a[0] == b[0] && Below(a[1..], b[1..])))
  }

  lemma {:induction false} BelowTotal(a: Bytes, b: Bytes)
    ensures Below(a, b) || a == b || Below(b, a)
    ensures !(Below(a, b) && (a == b || Below(b, a)))
  {
    if a != [] && b != [] && a[0] == b[0] {
      BelowTotal(a[1..], b[1..]);
      assert a == [a[0]] + a[1..] && b == [b[0]] + b[1..];
    }
  }

  /** The first `i` bytes agree, and then `a` ends or has the smaller byte. */
  predicate SmallerAt(a: Bytes, b: Bytes, i: nat) {
    && i <= |a| && i < |b| && a[..i] == b[..i]
    && (i == |a| || a[i] < b[i])
  }

  predicate Smaller(a: Bytes, b: Bytes) {
    exists i: nat :: i < |b| && SmallerAt(a, b, i)
  }

  /** What the order is: by the first byte that differs, a prefix before its extensions. */
  lemma {:induction false} BelowMeans(a: Bytes, b: Bytes)
    ensures Below(a, b) <==> Smaller(a, b)
  {
    if b != [] && a != [] && a[0] == b[0] {
      BelowMeans(a[1..], b[1..]);
      if i: nat :| SmallerAt(a[1..], b[1..], i) {
        assert a[..i + 1] == [a[0]] + a[1..][..i] && b[..i + 1] == [b[0]] + b[1..][..i];
        assert SmallerAt(a, b, i + 1);
      }
      if i: nat :| SmallerAt(a, b, i) {
        assert i > 0;
        assert a[1..][..i - 1] == a[..i][1..] && b[1..][..i - 1] == b[..i][1..];
        assert SmallerAt(a[1..], b[1..], i - 1);
      }
    } else if b != [] {
      if a == [] || a[0] < b[0] {
        assert SmallerAt(a, b, 0);
      } else {
        forall i: nat ensures !SmallerAt(a, b, i) {
          if 0 < i <= |a| && i < |b| {
            assert a[..i][0] == a[0] && b[..i][0] == b[0];
          }
        }
      }
    }
  }

  lemma {:induction false} BelowTransitive(a: Bytes, b: Bytes, c: Bytes)
    requires Below(a, b) && Below(b, c)
    ensures Below(a, c)
  {
    if a != [] && a[0] == b[0] == c[0] {
      BelowTransitive(a[1..], b[1..], c[1..]);
    }
  }

  lemma {:induction false} PrefixBelow(a: Bytes, b: Bytes)
    requires |a| < |b| && a == b[..|a|]
    ensures Below(a, b)
  {
    if a != [] {
      PrefixBelow(a[1..], b[1..]);
    }
  }

  ghost predicate Ascending(ks: seq<Bytes>) {
    forall i, j :: 0 <= i < j < |ks| ==> Below(ks[i], ks[j])
  }

  ghost predicate LeastOf(k: Bytes, ks: set<Bytes>) {
    k in ks && forall x :: x in ks && x != k ==> Below(k, x)
  }

  lemma {:induction false} LeastExists(ks: set<Bytes>) returns (k: Bytes)
    requires ks != {}
    ensures LeastOf(k, ks)
    decreases |ks|
  {
    k :| k in ks;
    if ks != {k} {
      var y := LeastExists(ks - {k});
      BelowTotal(k, y);
      if Below(y, k) {
        k := y;
      } else {
        forall x | x in ks && x != k && x != y ensures Below(k, x) {
          BelowTransitive(k, y, x);
        }
      }
    }
  }

  ghost function Least(ks: set<Bytes>): (k: Bytes)
    requires ks != {}
    ensures LeastOf(k, ks)
  {
    assert exists k :: LeastOf(k, ks) by {
      var k := LeastExists(ks);
    }
    var k :| LeastOf(k, ks);
    k
  }

  /** The keys of a map in the order sort.Strings puts them. */
  ghost function SortedKeys(ks: set<Bytes>): (s: seq<Bytes>)
    ensures |s| == |ks|
    ensures forall k :: k in s <==> k in ks
    ensures Ascending(s)
    decreases |ks|
  {
    if ks == {} then [] else [Least(ks)] + SortedKeys(ks - {Least(ks)})
  }

  lemma FirstIsLeast(s: seq<Bytes>, ks: set<Bytes>, k: Bytes)
    requires s != [] && Ascending(s) && LeastOf(k, ks) && forall x :: x in s <==> x in ks
    ensures s[0] == k
  {
    assert s[0] in s;
    var i :| 0 <= i < |s| && s[i] == k;
    BelowTotal(s[0], k);
    if i > 0 {
      assert Below(s[0], s[i]);
    }
  }

  lemma OthersAscend(s: seq<Bytes>)
    requires s != [] && Ascending(s)
    ensures Ascending(s[1..]) && forall x :: x in s[1..] <==> x in s && x != s[0]
  {
    var t := s[1..];
    forall i, j | 0 <= i < j < |t| ensures Below(t[i], t[j]) {
      assert t[i] == s[i + 1] && t[j] == s[j + 1];
    }
    BelowTotal(s[0], s[0]);
    forall i | 0 <= i < |t| ensures t[i] != s[0] {
      assert Below(s[0], s[i + 1]);
    }
    assert s == [s[0]] + t;
  }

  lemma SortedCons(ks: set<Bytes>)
    requires ks != {}
    ensures SortedKeys(ks) == [Least(ks)] + SortedKeys(ks - {Least(ks)})
  {
  }

  lemma Joined(s: seq<Bytes>, k: Bytes, t: seq<Bytes>)
    requires s != [] && s[0] == k && s[1..] == t
    ensures s == [k] + t
  {
  }

  /** An ascending sequence is determined by the keys in it. */
  lemma {:induction false} AscendingIsSorted(s: seq<Bytes>, ks: set<Bytes>)
    requires Ascending(s) && forall k :: k in s <==> k in ks
    ensures s == SortedKeys(ks)
    decreases |s|
  {
    hide Below, Ascending, LeastOf;
    if s == [] {
      assert ks == {};
    } else {
      hide SortedKeys, Least;
      assert s[0] in ks;
      FirstIsLeast(s, ks, Least(ks));
      OthersAscend(s);
      AscendingIsSorted(s[1..], ks - {s[0]});
      SortedCons(ks);
      Joined(s, s[0], SortedKeys(ks - {s[0]}));
    }
  }
}
