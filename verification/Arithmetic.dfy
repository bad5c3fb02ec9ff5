/** The few facts about products and quotients that the other modules share. */
module Arithmetic {

  lemma Grows(a: int, b: int, c: int)
    requires a <= b && 0 <= c
    ensures a * c <= b * c && c * a <= c * b
    ensures a < b ==> a * c + c <= b * c
  {
    if a < b {
      assert b * c == a * c + c + (b - a - 1) * c;
    }
  }

  /** The quotient is the only number that fits. */
  lemma QuotientIs(x: int, q: int, n: int)
    requires 0 < n && q * n <= x < q * n + n
    ensures x / n == q && x % n == x - q * n
  {
    var d := x / n;
    assert x == d * n + x % n;
    if d < q {
      Grows(d, q, n);
    } else if d > q {
      Grows(q, d, n);
    }
  }

  lemma QuotientBound(x: int, a: int, n: int)
    requires 0 < n && 0 <= x <= a * n
    ensures 0 <= x / n <= a
  {
    var d := x / n;
    assert x == d * n + x % n;
    if d > a {
      Grows(a, d, n);
    }
  }

  lemma WrapOnce(size: nat, x: nat)
    requires x < 2 * size
    ensures x % size == if x < size then x else x - size
  {
    QuotientIs(x, if x < size then 0 else 1, size);
  }
}
