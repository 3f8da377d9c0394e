// Division by a fixed divisor, read off a decomposition.
module Arithmetic {
  lemma DivUnique(x: int, d: int, q: int, r: int)
    requires d > 0 && x == d * q + r && 0 <= r < d
    ensures x / d == q && x % d == r
  {
    var e := x / d - q;
    assert d * e == r - x % d;
    MulLeavesRange(d, e);
  }

  lemma MulLeavesRange(d: int, e: int)
    requires d > 0
    ensures (e >= 1 ==> d * e >= d) && (e <= -1 ==> d * e <= -d)
  {
    if e >= 1 { assert d * e == d + d * (e - 1); }
    if e <= -1 { assert d * e == -d + d * (e + 1); }
  }
}
