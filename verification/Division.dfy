/** Quotients and remainders of natural numbers, without leaving the nonlinear steps to the solver. */
module Division {

  lemma {:induction false} ProductsApart(a: nat, b: nat, n: nat)
    requires a < b
    ensures a * n + n <= b * n
    decreases b
  {
    if a < b - 1 { ProductsApart(a, b - 1, n); }
    assert b * n == (b - 1) * n + n;
  }

  /** A quotient with a remainder below the divisor is the quotient. */
  lemma QuotientIs(x: nat, n: nat, q: nat, r: nat)
    requires r < n && x == q * n + r
    ensures x / n == q && x % n == r
  {
    var a, b := x / n, x % n;
    assert x == a * n + b;
    if a < q { ProductsApart(a, q, n); }
    if q < a { ProductsApart(q, a, n); }
  }

  lemma Below(x: nat, n: nat)
    requires x < n
    ensures x / n == 0 && x % n == x
  {
    QuotientIs(x, n, 0, x);
  }

  lemma OneMore(x: nat, n: nat)
    requires n > 0
    ensures (x + n) / n == x / n + 1 && (x + n) % n == x % n
  {
    var q, r := x / n, x % n;
    assert x == q * n + r;
    assert (q + 1) * n == q * n + n;
    QuotientIs(x + n, n, q + 1, r);
  }

  lemma Shift(x: nat, m: nat, n: nat)
    requires n > 0 && m % n == 0
    ensures (x + m) % n == x % n
  {
    var q, r, k := x / n, x % n, m / n;
    assert x == q * n + r && m == k * n;
    assert (q + k) * n == q * n + k * n;
    QuotientIs(x + m, n, q + k, r);
  }
}
