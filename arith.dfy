/** Facts about integer division by a positive divisor used by the rounding code. */
module Arith {

  lemma DivBounds(x: nat, d: nat)
    requires d > 0
    ensures d * (x / d) <= x < d * (x / d) + d
  {
  }

  lemma MulMonotone(k: nat, a: nat, b: nat)
    requires a <= b
    ensures k * a <= k * b
  {
  }

  lemma DivMonotone(x1: nat, x2: nat, d: nat)
    requires x1 <= x2 && d > 0
    ensures x1 / d <= x2 / d
  {
    DivBounds(x1, d);
    DivBounds(x2, d);
    if x1 / d > x2 / d {
      MulMonotone(d, x2 / d + 1, x1 / d);
      assert false;
    }
  }

  /** Euclidean division is determined by any quotient and remainder in range. */
  lemma DivModUnique(x: int, d: int, q: int, r: int)
    requires d > 0 && 0 <= r < d && x == q * d + r
    ensures x / d == q && x % d == r
  {
    var q', r' := x / d, x % d;
    assert x == q' * d + r';
    if q' < q {
      assert q * d - q' * d == (q - q') * d;
      MulMonotone(d, 1, q - q');
      assert false;
    } else if q < q' {
      assert q' * d - q * d == (q' - q) * d;
      MulMonotone(d, 1, q' - q);
      assert false;
    }
  }

  /** Moving by whole multiples of `d` shifts the quotient and keeps the remainder. */
  lemma ShiftByMultiple(x: int, d: int, k: int)
    requires d > 0
    ensures (x + k * d) / d == x / d + k
    ensures (x + k * d) % d == x % d
  {
    var q, r := x / d, x % d;
    assert x + k * d == (q + k) * d + r;
    DivModUnique(x + k * d, d, q + k, r);
  }
}
