/** Division facts the solver needs spelled out. */
module Arith {

  lemma DivRem(c: int, n: int)
    requires n > 0
    ensures c == c / n * n + c % n && 0 <= c % n < n
  {
  }

  lemma MulAtLeast(d: int, n: int)
    requires d >= 1 && n >= 0
    ensures d * n >= n
  {
    assert d * n == (d - 1) * n + n;
  }

  /** A multiple of n strictly between -n and n is zero. */
  lemma SmallMultiple(d: int, n: int)
    requires n > 0 && -n < d * n < n
    ensures d == 0
  {
    if d >= 1 {
      MulAtLeast(d, n);
    } else if d <= -1 {
      assert (-d) * n == -(d * n);
      MulAtLeast(-d, n);
    }
  }

  /** Quotient and remainder are unique. */
  lemma RemOf(c: int, q: int, r: int, n: int)
    requires n > 0 && 0 <= r < n && c == q * n + r
    ensures c % n == r && c / n == q
  {
    DivRem(c, n);
    assert (c / n - q) * n == r - c % n;
    SmallMultiple(c / n - q, n);
  }

  lemma DivMonotone(a: int, b: int, n: int)
    requires n > 0 && a <= b
    ensures a / n <= b / n
  {
    DivRem(a, n);
    DivRem(b, n);
    var d := a / n - b / n;
    assert d * n == a - b + b % n - a % n;
    if d >= 1 {
      MulAtLeast(d, n);
    }
  }

  /** Equal remainders less than n apart are equal numbers. */
  lemma SameRem(a: int, b: int, n: int)
    requires n > 0 && b <= a < b + n && a % n == b % n
    ensures a == b
  {
    DivRem(a, n);
    DivRem(b, n);
    var d := a / n - b / n;
    assert d * n == a - b;
    SmallMultiple(d, n);
  }

  lemma SmallRem(a: int, n: int)
    requires 0 <= a < n
    ensures a % n == a
  {
  }
}
