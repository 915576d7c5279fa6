/** Multiples and remainders. */
module Arithmetic {
  lemma {:induction false} Scale(n: int, p: int, q: int)
    requires n > 0 && p < q
    ensures n * p + n <= n * q
  {
    var d := q - p - 1;
    assert n * d >= 0;
    assert n * q == n * p + n * d + n;
  }

  lemma {:induction false} ModUnique(x: int, n: int, q: int, r: int)
    requires n > 0 && 0 <= r < n && x == n * q + r
    ensures x % n == r
  {
    var p := x / n;
    assert x == n * p + x % n;
    if p < q {
      Scale(n, p, q);
    } else if q < p {
      Scale(n, q, p);
    }
  }
}
