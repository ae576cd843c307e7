/** Integer division facts the sample-index arithmetic relies on. */
module Arith {

  lemma MulAtLeast(d: int, step: int)
    requires d >= 1 && step > 0
    ensures d * step >= step
  {
  }

  /** Euclidean division is determined by quotient and remainder. */
  lemma DivModUnique(x: int, step: int, q: int, r: int)
    requires step > 0 && 0 <= r < step && x == q * step + r
    ensures x / step == q && x % step == r
  {
    var q', r' := x / step, x % step;
    assert x == q' * step + r';
    if q' > q {
      MulAtLeast(q' - q, step);
    } else if q > q' {
      MulAtLeast(q - q', step);
    }
  }

  lemma ModShift(x: nat, step: nat)
    requires step >= 1
    ensures (x + step) % step == x % step
  {
    DivModUnique(x + step, step, x / step + 1, x % step);
  }

  lemma MultipleMod(q: nat, r: nat, period: nat)
    requires period >= 1 && r < period
    ensures (q * period + r) % period == r
  {
    DivModUnique(q * period + r, period, q, r);
  }

  lemma MulMonotone(a: int, b: int, step: int)
    requires a >= b && step > 0
    ensures a * step >= b * step
  {
  }

  /** A small non-negative value is its own remainder. */
  lemma SmallMod(a: nat, n: nat)
    requires a < n
    ensures a % n == a
  {
    DivModUnique(a, n, 0, a);
  }

  /** A value in [-n, 0) wraps around to a + n. */
  lemma ModOfNegative(a: int, n: int)
    requires n > 0 && -n <= a < 0
    ensures a % n == a + n
  {
    DivModUnique(a, n, -1, a + n);
  }
}
