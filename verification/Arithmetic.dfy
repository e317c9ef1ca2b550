/** Floor division is monotone. */
module Arithmetic {
  lemma FloorMonotone(amount: int, a: int, b: int, d: int)
    requires 0 <= amount && 0 <= a <= b && 0 < d
    ensures 0 <= (amount * a) / d <= (amount * b) / d
    ensures b <= d ==> (amount * b) / d <= amount
  {
    assert amount * a <= amount * b by { MulMonotone(amount, a, b); }
    assert 0 <= amount * a by { MulMonotone(amount, 0, a); }
    DivMonotone(amount * a, amount * b, d);
    if b <= d {
      MulMonotone(amount, b, d);
      DivMonotone(amount * b, amount * d, d);
      DivCancel(amount, d);
    }
  }

  lemma MulMonotone(k: int, a: int, b: int)
    requires 0 <= k && a <= b
    ensures k * a <= k * b
  {
  }

  lemma DivMonotone(a: int, b: int, d: int)
    requires 0 <= a <= b && 0 < d
    ensures 0 <= a / d <= b / d
  {
    var qa, qb := a / d, b / d;
    if qb < qa {
      MulMonotone(d, qb + 1, qa);
    }
    if qa < 0 {
      MulMonotone(d, qa, -1);
    }
  }

  lemma DivCancel(a: int, d: int)
    requires 0 < d
    ensures (a * d) / d == a
  {
    var q := (a * d) / d;
    if q < a {
      MulMonotone(d, q + 1, a);
    } else if q > a {
      MulMonotone(d, a + 1, q);
    }
  }

  /** A quotient is the largest multiple that fits. */
  lemma QuotientAtLeast(q: nat, n: nat, d: nat)
    requires 0 < d && q * d <= n
    ensures q <= n / d
  {
    DivMonotone(q * d, n, d);
    DivCancel(q, d);
  }

  lemma QuotientAtMost(q: nat, n: nat, d: nat)
    requires 0 < d && n <= q * d
    ensures n / d <= q && n / d * d <= n
  {
    DivMonotone(n, q * d, d);
    DivCancel(q, d);
  }
}
