/** Facts of integer multiplication and Euclidean division that the solver does not find on its own. */
module Arith {

  lemma MulAtLeast(d: int, p: int)
    requires d >= 1 && p > 0
    ensures d * p >= p
  {
    assert d * p == (d - 1) * p + p;
  }

  lemma MulAddDivMod(q: int, p: int, r: int)
    requires p > 0 && 0 <= r < p
    ensures (q * p + r) % p == r && (q * p + r) / p == q
  {
    var v := q * p + r;
    var q', r' := v / p, v % p;
    assert v == q' * p + r';
    assert (q - q') * p == r' - r;
    if q > q' {
      MulAtLeast(q - q', p);
    } else if q < q' {
      MulAtLeast(q' - q, p);
    }
  }

  lemma MulShift(a: int, p: int)
    ensures 10 * (a * p) == a * (10 * p)
  {
  }

  lemma MulMonotone(a: int, b: int, c: int)
    requires a <= b && c >= 0
    ensures a * c <= b * c
  {
    assert b * c - a * c == (b - a) * c;
  }

  /** `k` multiples of `d` fit below `n` exactly when `k` is at most `n / d`. */
  lemma MultipleFits(k: int, d: int, n: int)
    requires d > 0 && n >= 0
    ensures k * d <= n <==> k <= n / d
  {
    var q, r := n / d, n % d;
    assert n == q * d + r;
    if k <= q {
      MulMonotone(k, q, d);
    } else {
      MulMonotone(q + 1, k, d);
      assert (q + 1) * d == q * d + d;
    }
  }
}
