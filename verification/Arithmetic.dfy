/** Machine-word bounds, and that division with remainder is unique. */
module Arithmetic {

  const TWO64: nat := 0x1_0000_0000_0000_0000

  lemma Remainder(v: nat, d: nat, q: nat, r: nat)
    requires r < d && v == q * d + r
    ensures v % d == r
  {
    var k := v / d - q;
    assert k * d == r - v % d by {
      assert (v / d - q) * d == v / d * d - q * d;
    }
    Multiple(k, d);
  }

  lemma Multiple(k: int, d: nat)
    ensures k >= 1 ==> k * d >= d
    ensures k <= -1 ==> k * d + d <= 0
  {
    if k >= 1 {
      assert (k - 1) * d >= 0;
    }
    if k <= -1 {
      assert (-k - 1) * d >= 0;
    }
  }
}
