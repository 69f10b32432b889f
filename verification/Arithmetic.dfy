// Products and quotients of integers.
module Arithmetic {

  function Min(a: nat, b: nat): nat {
    if a < b then a else b
  }

  lemma MulNonNegative(a: nat, d: nat)
    ensures a * d >= 0
  {
  }

  lemma Distribute(a: int, b: int, d: int)
    ensures (a + b) * d == a * d + b * d
  {
  }

  lemma Less(a: int, b: int, d: nat)
    requires a < b
    ensures a * d + d <= b * d
  {
    Distribute(a, 1, d);
    Distribute(a + 1, b - a - 1, d);
    MulNonNegative(b - a - 1, d);
  }

  lemma DivMod(n: int, d: nat)
    requires d > 0
    ensures n / d * d <= n < n / d * d + d && n == n / d * d + n % d
  {
  }

  /** A quotient with a remainder below the divisor is the quotient. */
  lemma DivisionIsUnique(n: int, d: nat, q: int, r: int)
    requires d > 0 && n == q * d + r && 0 <= r < d
    ensures n / d == q && n % d == r
  {
    DivMod(n, d);
    if q < n / d {
      Less(q, n / d, d);
    } else if n / d < q {
      Less(n / d, q, d);
    }
  }
}
