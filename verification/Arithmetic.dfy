/**
 Products, quotients and remainders of numbers that are not constants.
 */
module Arithmetic {
  lemma {:induction false} ProductGrows(a: nat, b: nat, c: nat)
    requires a <= b
    ensures a * c <= b * c
    decreases b - a
  {
    if a < b {
      ProductGrows(a + 1, b, c);
      assert (a + 1) * c == a * c + c;
    }
  }

  /** A number written as quotient and remainder has that quotient and that remainder. */
  lemma QuotientOf(quotient: nat, divisor: nat, remainder: nat)
    requires remainder < divisor
    ensures (quotient * divisor + remainder) / divisor == quotient
    ensures (quotient * divisor + remainder) % divisor == remainder
  {
    var x := quotient * divisor + remainder;
    var q := x / divisor;
    assert x == q * divisor + x % divisor;
    assert (q + 1) * divisor == q * divisor + divisor;
    assert (quotient + 1) * divisor == quotient * divisor + divisor;
    if q < quotient {
      ProductGrows(q + 1, quotient, divisor);
    } else if q > quotient {
      ProductGrows(quotient + 1, q, divisor);
    }
  }

  lemma ModuloStep(n: nat, r: nat)
    requires 0 < r <= n
    ensures n % r == (n - r) % r
  {
    var q := n / r;
    assert n == q * r + n % r;
    assert q > 0;
    assert n - r == (q - 1) * r + n % r;
    QuotientOf(q - 1, r, n % r);
  }

  /** The difference of two multiples. */
  lemma MultiplesDiffer(a: nat, b: nat, r: nat)
    requires r > 0 && a % r == 0 && b % r == 0 && a <= b
    ensures b - a == (b - a) / r * r
  {
    var p, q := a / r, b / r;
    assert a == p * r && b == q * r;
    assert (q + 1) * r == q * r + r;
    if q < p {
      ProductGrows(q + 1, p, r);
    }
    assert b - a == (q - p) * r;
    QuotientOf(q - p, r, 0);
  }
}
