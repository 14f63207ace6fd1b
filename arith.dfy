/** Facts about non-linear integer arithmetic the other modules rely on. */
module Arith {

  function Pow2(n: nat): (r: nat)
    ensures r >= 1
  {
    if n == 0 then 1 else 2 * Pow2(n - 1)
  }

  lemma MulLe(d: nat, a: int, b: int)
    requires a <= b
    ensures d * a <= d * b
  {
    assert d * b - d * a == d * (b - a);
  }

  /** The quotient is the only q with d * q <= x < d * q + d. */
  lemma DivUnique(x: int, d: int, q: int)
    requires d > 0 && d * q <= x < d * q + d
    ensures x / d == q
  {
    var p := x / d;
    assert x == d * p + x % d;
    if q < p {
      MulLe(d, q + 1, p);
    } else if q > p {
      MulLe(d, p + 1, q);
    }
  }

  /** Shifting right by one and then by n is shifting right by n + 1. */
  lemma DivHalf(x: nat, m: nat)
    requires m > 0
    ensures (x / 2) / m == x / (2 * m)
  {
    var q := x / (2 * m);
    var r := x % (2 * m);
    assert x == (2 * m) * q + r;
    assert x / 2 == m * q + r / 2;
    DivUnique(x / 2, m, q);
  }

  lemma DivMod(a: int, b: nat)
    requires b > 0
    ensures (a / b) * b <= a < (a / b) * b + b
  {
    assert a == (a / b) * b + a % b;
  }
}
