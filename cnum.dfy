/**
  Integer and float-to-integer conversions as C++ performs them. Dafny's `/` on
  `int` is Euclidean and `.Floor` rounds toward minus infinity; C++ truncates
  toward zero in both cases, which differs for negative operands.
*/
module CNum {

  function Abs(x: int): nat { if x < 0 then -x else x }

  /** C++ `a / b` on `int`: the quotient truncated toward zero. */
  function CDiv(a: int, b: int): (q: int)
    requires b != 0
    ensures Abs(a - q * b) < Abs(b)
    ensures a - q * b == 0 || (a - q * b < 0 <==> a < 0)
    ensures a >= 0 && b > 0 ==> q == a / b
  {
    if a >= 0 && b > 0 then a / b
    else if a >= 0 then -(a / -b)
    else if b > 0 then -((-a) / b)
    else (-a) / (-b)
  }

  /** C++ conversion of a floating-point value to `int`: truncation toward zero. */
  function Trunc(x: real): (n: int)
    ensures x >= 0.0 ==> 0 <= n && n as real <= x < n as real + 1.0
    ensures x < 0.0 ==> n <= 0 && n as real - 1.0 < x <= n as real
  {
    if x >= 0.0 then x.Floor else -((-x).Floor)
  }

  /** Truncating a real in [0, m] gives an integer in [0, m]. */
  lemma TruncAtMost(x: real, m: int)
    requires 0.0 <= x <= m as real
    ensures 0 <= Trunc(x) <= m
  {
    var n := Trunc(x);
    assert n as real <= m as real;
  }

  /** A fraction in [0, 1] of `m`, truncated, lies in [0, m]. */
  lemma TruncFraction(t: real, m: nat)
    requires 0.0 <= t <= 1.0
    ensures 0 <= Trunc(t * m as real) <= m
  {
    FractionOf(t, m as real);
    TruncAtMost(t * m as real, m);
  }

  /** `lo` or `hi` when `x` lies outside `[lo, hi]`, `x` otherwise. */
  function ClampReal(x: real, lo: real, hi: real): (r: real)
    requires lo <= hi
    ensures lo <= r <= hi
    ensures lo <= x <= hi ==> r == x
  {
    if x < lo then lo else if x > hi then hi else x
  }

  /** Multiplying by a non-negative integer keeps the order. */
  lemma MulLe(a: int, b: int, c: int)
    requires a <= b && c >= 0
    ensures a * c <= b * c
  {
    assert b * c - a * c == (b - a) * c;
  }

  /** `k * b` is at least `b` when `k >= 1` and `b >= 0`. */
  lemma MulAtLeast(k: int, b: int)
    requires k >= 1 && b >= 0
    ensures k * b >= b
  {
    var j := k - 1;
    assert j * b >= 0;
    assert k * b == j * b + b;
  }

  /** Integer division by a positive divisor is monotone. */
  lemma DivMonotone(a: int, b: int, d: int)
    requires 0 <= a <= b && d > 0
    ensures a / d <= b / d
  {
    var qa, qb := a / d, b / d;
    if qa > qb {
      MulAtLeast(qa - qb, d);
      assert false;
    }
  }

  /** Dividing by a positive real keeps the order. */
  lemma DivLe(a: real, b: real, d: real)
    requires a <= b && d > 0.0
    ensures a / d <= b / d
    ensures a < b ==> a / d < b / d
  {
    assert b / d - a / d == (b - a) / d;
  }

  /** A positive real divided by itself. */
  lemma SelfDiv(d: real)
    requires d > 0.0
    ensures d / d == 1.0
  {
  }

  /** Multiplying by a positive real and dividing by it again. */
  lemma MulDivCancel(a: real, d: real)
    requires d > 0.0
    ensures a * d / d == a
  {
  }

  /** Scaling by a fraction below 1 stays below the scale. */
  lemma ScaleBelow(t: real, n: real)
    requires 0.0 <= t < 1.0 && n > 0.0
    ensures 0.0 <= t * n < n
  {
    assert n - t * n == (1.0 - t) * n;
  }

  /** A fraction in [0, 1] of a non-negative real lies between 0 and that real. */
  lemma FractionOf(t: real, n: real)
    requires 0.0 <= t <= 1.0 && n >= 0.0
    ensures 0.0 <= t * n <= n
  {
    assert n - t * n == (1.0 - t) * n;
  }
}
