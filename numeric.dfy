/** Integer and real helpers shared by the three Go packages. Each package
    carries its own copy of `imin` and `imax`; they are defined once here.
    Go's float64 is modelled as `real`, so NaN, infinities and rounding are
    outside this model: the places where the source would produce them are
    preconditions of the operations that reach them. */
module Numeric {

  /** A value that may be absent: a nil pointer, or a query that failed. */
  datatype Option<T> = None | Some(value: T)
  {
    function GetOr(default: T): T
    {
      match this
      case Some(v) => v
      case None => default
    }
  }

  /** `imin`: the smaller of two ints. */
  function Imin(a: int, b: int): (r: int)
    ensures r <= a && r <= b
    ensures r == a || r == b
  {
    if a < b then a else b
  }

  /** `imax`: the larger of two ints. */
  function Imax(a: int, b: int): (r: int)
    ensures r >= a && r >= b
    ensures r == a || r == b
  {
    if a < b then b else a
  }

  /** `math.Min` on finite arguments. */
  function RMin(a: real, b: real): (r: real)
    ensures r <= a && r <= b
    ensures r == a || r == b
  {
    if a < b then a else b
  }

  /** `math.Max` on finite arguments. */
  function RMax(a: real, b: real): (r: real)
    ensures r >= a && r >= b
    ensures r == a || r == b
  {
    if a < b then b else a
  }

  /** Go's conversion `int(x)` of a float: the fraction is dropped, rounding
      toward zero (not toward minus infinity as `Floor` does). */
  function Trunc(x: real): (n: int)
    ensures 0.0 <= x ==> 0 <= n && n as real <= x < n as real + 1.0
    ensures x <= 0.0 ==> n <= 0 && n as real - 1.0 < x <= n as real
  {
    if x >= 0.0 then x.Floor else -((-x).Floor)
  }

  /** Truncation never reverses the order of two values. */
  lemma TruncMonotone(x: real, y: real)
    requires x <= y
    ensures Trunc(x) <= Trunc(y)
  {
  }

  /** Dividing a non-negative number by a positive one leaves it non-negative. */
  lemma DivNonneg(a: real, d: real)
    requires d > 0.0
    ensures 0.0 <= a ==> 0.0 <= a / d
  {
    assert a / d * d == a;
  }

  /** Dividing by a positive number keeps the order of two values. */
  lemma DivMonotone(a: real, b: real, d: real)
    requires a <= b && d > 0.0
    ensures a / d <= b / d
  {
    assert a / d * d == a;
    assert b / d * d == b;
  }

  /** Multiplying by a number and dividing by it again gives back the start. */
  lemma MulDivCancel(d: real, a: real)
    requires d != 0.0
    ensures d * a / d == a
  {
  }

  /** Quotients by the same divisor add up as their dividends do. */
  lemma DivAdd(a: real, b: real, d: real)
    requires d != 0.0
    ensures a / d + b / d == (a + b) / d
  {
    assert a / d * d == a;
    assert b / d * d == b;
    assert (a / d + b / d) * d == a + b;
  }

  /** Multiplying by a positive number keeps the order of two values. */
  lemma MulMonotone(a: real, b: real, d: real)
    requires a <= b && d > 0.0
    ensures a * d <= b * d
  {
  }

  /** Multiplying by a positive number keeps the strict order of two values. */
  lemma MulStrict(a: real, b: real, d: real)
    requires a < b && d > 0.0
    ensures a * d < b * d
  {
  }

  /** `x - math.Floor(x)`: the fractional part, which lies in [0, 1) and
      leaves an integer behind. */
  function Frac(x: real): (f: real)
    ensures 0.0 <= f < 1.0
    ensures (x - f).Floor as real == x - f
  {
    x - x.Floor as real
  }

  /** `strings.Repeat` for a single character. */
  function Repeat(c: char, n: nat): (s: string)
    ensures |s| == n
    ensures forall i :: 0 <= i < n ==> s[i] == c
  {
    seq(n, _ => c)
  }
}
