/** Facts about Euclidean division and remainder by a positive divisor, which is also
    how Python's `%` behaves when the divisor is positive. */
module Arith {

  /** The number of iterations of Python's range(n): n, or none when n is negative. */
  function Count(n: int): nat
  {
    if n < 0 then 0 else n
  }

  /** Quotient and remainder are determined by the division equation. */
  lemma DivModUnique(a: int, n: int, q: int, r: int)
    requires n > 0 && 0 <= r < n && a == q * n + r
    ensures a / n == q && a % n == r
  {
    var q0, r0 := a / n, a % n;
    assert a == q0 * n + r0;
    assert (q - q0) * n == r0 - r;
    if q0 < q {
      MulAtLeast(q - q0, n);
    } else if q < q0 {
      MulAtLeast(q0 - q, n);
    }
  }

  lemma {:induction false} MulAtLeast(d: int, n: int)
    requires d >= 1 && n > 0
    ensures d * n >= n
    decreases d
  {
    if d > 1 {
      MulAtLeast(d - 1, n);
      assert d * n == (d - 1) * n + n;
    }
  }

  /** Adding the divisor does not change the remainder. */
  lemma ModShift(a: int, n: int)
    requires n > 0
    ensures (a + n) % n == a % n
  {
    assert a == (a / n) * n + a % n;
    DivModUnique(a + n, n, a / n + 1, a % n);
  }

  /** Reducing a summand first does not change the remainder of the sum. */
  lemma ModAdd(a: int, b: int, n: int)
    requires n > 0
    ensures (a % n + b) % n == (a + b) % n
  {
    var q, t := a / n, a + b;
    assert a == q * n + a % n;
    assert t == (t / n) * n + t % n;
    assert (t / n - q) * n == (t / n) * n - q * n;
    DivModUnique(a % n + b, n, t / n - q, t % n);
  }
}
