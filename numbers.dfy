/** JavaScript number helpers on exact reals: `Math.round`, `Math.max`, `Math.min`. */
module Numbers {

  /** `Math.round(x)`: the integer nearest to x, halves rounding up. */
  function Round(x: real): (n: int)
    ensures x - 0.5 < n as real <= x + 0.5
  {
    (x + 0.5).Floor
  }

  /** Rounding an integral value gives it back. */
  lemma RoundInt(n: int)
    ensures Round(n as real) == n
  {
  }

  /** Rounding keeps a value inside integral bounds. */
  lemma RoundBetween(x: real, lo: int, hi: int)
    requires lo as real <= x <= hi as real
    ensures lo <= Round(x) <= hi
  {
  }

  /** Rounding is monotone. */
  lemma RoundMonotone(x: real, y: real)
    requires x <= y
    ensures Round(x) <= Round(y)
  {
  }

  /** `Math.round(p * k)` */
  function RoundedProduct(p: real, k: real): real {
    Round(p * k) as real
  }

  /** A product within integral bounds rounds within them. */
  lemma RoundedProductBetween(p: real, k: real)
    requires 0.0 <= p * k <= 100.0
    ensures 0.0 <= RoundedProduct(p, k) <= 100.0
  {
    RoundBetween(p * k, 0, 100);
  }

  /** `Math.round(p * k)` is within half a unit of the product. */
  lemma RoundedProductNear(p: real, k: real)
    ensures p * k - 0.5 < RoundedProduct(p, k) <= p * k + 0.5
  {
    var n := Round(p * k);
    assert RoundedProduct(p, k) == n as real;
  }

  /** Multiplying a whole number by 1 and rounding gives it back. */
  lemma RoundedProductUnit(x: real)
    requires x == x.Floor as real
    ensures RoundedProduct(x, 1.0) == x
  {
    assert x * 1.0 == x;
    RoundInt(x.Floor);
  }

  /** A product of at least 0.7 rounds to at least 1. */
  lemma RoundedProductAtLeastOne(p: real, k: real)
    requires p >= 1.0 && k >= 0.7
    ensures RoundedProduct(p, k) >= 1.0
  {
    assert p * k >= 0.7;
    RoundMonotone(0.7, p * k);
    assert Round(0.7) == 1;
  }

  function Max(a: real, b: real): real { if a >= b then a else b }

  function Min(a: real, b: real): real { if a <= b then a else b }

  function MaxInt(a: int, b: int): int { if a >= b then a else b }
}
