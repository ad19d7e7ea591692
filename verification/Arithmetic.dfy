/** Division facts for index arithmetic with variable strides. */
module Arithmetic {
  lemma SmallMultiple(a: int, n: int)
    requires 0 < n && -n < a * n < n
    ensures a == 0
  {
  }

  lemma PositiveFactors(a: nat, n: nat)
    requires 0 < a * n
    ensures 0 < a && 0 < n
  {
  }

  /** Splitting q * n + r gives back q and r. */
  lemma Quotient(n: nat, q: nat, r: nat)
    requires r < n
    ensures (q * n + r) / n == q && (q * n + r) % n == r
  {
    var t := q * n + r;
    var x := t / n;
    assert t == x * n + t % n;
    assert (q - x) * n == t % n - r;
    SmallMultiple(q - x, n);
  }

  /** The parts of t put t together again. */
  lemma Rebuild(t: nat, n: nat)
    requires 0 < n
    ensures (t / n) * n + t % n == t && t % n < n
  {
  }

  lemma Divides(t: nat, n: nat, q: nat, r: nat)
    requires t == q * n + r && r < n
    ensures t / n == q && t % n == r
  {
    Quotient(n, q, r);
  }

  /** Counting on by one, as an odometer does. */
  lemma Successor(t: nat, n: nat, q: nat, r: nat)
    requires 0 < n && q == t / n && r == t % n
    ensures r < n
    ensures r + 1 < n ==> (t + 1) / n == q && (t + 1) % n == r + 1
    ensures r + 1 == n ==> (t + 1) / n == q + 1 && (t + 1) % n == 0
  {
    Rebuild(t, n);
    if r + 1 < n {
      Divides(t + 1, n, q, r + 1);
    } else {
      assert (q + 1) * n == q * n + n;
      Divides(t + 1, n, q + 1, 0);
    }
  }

  lemma ProductGrows(a: nat, b: nat, c: nat, d: nat)
    requires a <= b && c <= d
    ensures a * c <= b * d
  {
    assert b * d == a * c + (b - a) * c + b * (d - c);
  }

  /** q * n + r stays below m * n for q below m. */
  lemma Within(q: nat, m: nat, r: nat, n: nat)
    requires q < m && r < n
    ensures q * n + r < m * n
  {
    assert (q + 1) * n <= m * n;
    assert (q + 1) * n == q * n + n;
  }

  lemma QuotientBelow(t: nat, n: nat, m: nat)
    requires 0 < n && t < m * n
    ensures t / n < m
  {
    Rebuild(t, n);
    assert (m - t / n) * n == m * n - (t / n) * n;
  }

  /** Whole multiples of n do not change the remainder. */
  lemma ModShift(x: nat, q: nat, n: nat)
    requires 0 < n
    ensures (x + q * n) % n == x % n
  {
    Rebuild(x, n);
    assert (x / n + q) * n == (x / n) * n + q * n;
    Divides(x + q * n, n, x / n + q, x % n);
  }

  /** Reducing a term first does not change the reduced sum. */
  lemma ModAdd(x: nat, y: nat, n: nat)
    requires 0 < n
    ensures (x % n + y) % n == (x + y) % n
  {
    Rebuild(x, n);
    ModShift(x % n + y, x / n, n);
  }
}
