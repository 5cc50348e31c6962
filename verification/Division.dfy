/** Quotients and remainders by a divisor that may be a variable. */
module Division {
  lemma Quotient(n: int, d: int, q: int, r: int)
    requires d > 0 && n == d * q + r && 0 <= r
    ensures n / d == q + r / d
  {
    var m := r / d;
    assert n == d * (q + m) + r % d;
    DivUnique(n, d, q + m, r % d);
  }

  lemma DivUnique(n: int, d: int, q: int, r: int)
    requires d > 0 && n == d * q + r && 0 <= r < d
    ensures n / d == q && n % d == r
  {
    var (q', r') := (n / d, n % d);
    assert n == d * q' + r';
    Multiple(d, q, q', r' - r);
  }

  lemma Multiple(d: int, a: int, b: int, rest: int)
    requires d > 0 && d * a == d * b + rest && -d < rest < d
    ensures a == b
  {
    Distribute(d, a, b);
    if a > b {
      AtLeast(d, a - b);
    } else if a < b {
      Distribute(d, b, a);
      AtLeast(d, b - a);
    }
  }

  lemma Distribute(d: int, a: int, b: int)
    ensures d * (a - b) == d * a - d * b
  {}

  lemma {:induction false} AtLeast(d: int, n: int)
    requires d > 0 && n > 0
    ensures d * n >= d
  {
    if n > 1 {
      AtLeast(d, n - 1);
      Distribute(d, n, 1);
    }
  }
}
