/** Python's `round` applied to an exact rational n/d: the nearest integer, ties to even. */
module Rounding {

  /** `r` is a nearest integer to n/d, and an even one when n/d lies exactly halfway. */
  predicate IsRoundHalfEven(r: int, n: int, d: int)
    requires d > 0
  {
    var e := 2 * (n - r * d);  // twice the distance from r to n/d, scaled by d
    -d <= e <= d && ((e == d || e == -d) ==> r % 2 == 0)
  }

  function RoundHalfEven(n: int, d: int): (r: int)
    requires d > 0
    ensures IsRoundHalfEven(r, n, d)
  {
    var q, m := n / d, n % d;
    assert n - q * d == m;
    assert n - (q + 1) * d == m - d;
    if 2 * m < d then q
    else if 2 * m > d then q + 1
    else if q % 2 == 0 then q
    else q + 1
  }

  lemma MulAtMostOne(k: int, d: int)
    requires d > 0 && -d <= k * d <= d
    ensures -1 <= k <= 1
  {
  }

  lemma MulMonotone(a: int, b: int, d: int)
    requires a <= b && d >= 0
    ensures a * d <= b * d
  {
  }

  /** There is exactly one half-to-even rounding of n/d. */
  lemma RoundUnique(n: int, d: int, r: int)
    requires d > 0 && IsRoundHalfEven(r, n, d)
    ensures RoundHalfEven(n, d) == r
  {
    var s := RoundHalfEven(n, d);
    var k := r - s;
    assert 2 * (n - s * d) - 2 * (n - r * d) == 2 * (k * d);
    MulAtMostOne(k, d);
  }

  /** A whole quotient rounds to itself. */
  lemma RoundExact(k: int, d: int)
    requires d > 0
    ensures RoundHalfEven(k * d, d) == k
  {
    RoundUnique(k * d, d, k);
  }

  /** Two half-to-even roundings over one divisor keep the order of their numerators. */
  lemma HalfEvenOrdered(n1: int, n2: int, d: int, r1: int, r2: int)
    requires d > 0 && n1 <= n2
    requires IsRoundHalfEven(r1, n1, d) && IsRoundHalfEven(r2, n2, d)
    ensures r1 <= r2
  {
    if r1 > r2 {
      // r1 * d lies at least d above r2 * d, so n1 and n2 are one exact tie rounded two ways
      MulMonotone(r2 + 1, r1, d);
      assert (r2 + 1) * d == r2 * d + d;
      if r1 > r2 + 1 {
        MulMonotone(r2 + 2, r1, d);
      }
      assert false;
    }
  }

  /** Rounding never reverses the order of two numerators over the same divisor. */
  lemma RoundMonotone(n1: int, n2: int, d: int)
    requires d > 0 && n1 <= n2
    ensures RoundHalfEven(n1, d) <= RoundHalfEven(n2, d)
  {
    HalfEvenOrdered(n1, n2, d, RoundHalfEven(n1, d), RoundHalfEven(n2, d));
  }

  /** A quotient that lies between two integers rounds to a value between them. */
  lemma RoundBetween(n: int, d: int, lo: int, hi: int)
    requires d > 0 && lo * d <= n <= hi * d
    ensures lo <= RoundHalfEven(n, d) <= hi
  {
    RoundExact(lo, d);
    RoundExact(hi, d);
    RoundMonotone(lo * d, n, d);
    RoundMonotone(n, hi * d, d);
  }
}
