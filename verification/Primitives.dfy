/** Value types and the .NET numeric operations the game relies on, stated over
    unbounded reals and integers: System.Drawing.PointF, Math.Abs/Max/Min/Clamp,
    the truncating (int) cast and Math.Round's round-half-to-even default. */
module Primitives {

  /** The conventional Some/None wrapper, used for C# references that may be null. */
  datatype Option<T> = None | Some(value: T)

  /** System.Drawing.PointF: a pair of world coordinates. */
  datatype Point = Point(x: real, y: real)

  function Abs(v: real): (r: real)
    ensures r >= 0.0
    ensures r == v || r == -v
  {
    if v < 0.0 then -v else v
  }

  function MaxReal(a: real, b: real): (r: real)
    ensures r >= a && r >= b
    ensures r == a || r == b
  {
    if a >= b then a else b
  }

  function MinInt(a: int, b: int): (r: int)
    ensures r <= a && r <= b
    ensures r == a || r == b
  {
    if a <= b then a else b
  }

  /** Math.Clamp(value, min, max) for floats; .NET throws when min > max. */
  function ClampReal(v: real, lo: real, hi: real): (r: real)
    requires lo <= hi
    ensures lo <= r <= hi
    ensures lo <= v <= hi ==> r == v
    ensures v < lo ==> r == lo
    ensures v > hi ==> r == hi
  {
    if v < lo then lo else if v > hi then hi else v
  }

  /** Math.Clamp(value, min, max) for ints; .NET throws when min > max. */
  function ClampInt(v: int, lo: int, hi: int): (r: int)
    requires lo <= hi
    ensures lo <= r <= hi
    ensures lo <= v <= hi ==> r == v
    ensures v < lo ==> r == lo
    ensures v > hi ==> r == hi
  {
    if v < lo then lo else if v > hi then hi else v
  }

  /** The C# cast (int)f: truncation toward zero (range overflow is not modelled). */
  function TruncToInt(v: real): (n: int)
    ensures v >= 0.0 ==> n as real <= v < n as real + 1.0
    ensures v < 0.0 ==> n as real - 1.0 < v <= n as real
  {
    if v >= 0.0 then v.Floor else -((-v).Floor)
  }

  /** Math.Round(double): nearest integer, ties to the even neighbour. */
  function RoundHalfEven(v: real): (n: int)
    ensures n as real - 0.5 <= v <= n as real + 0.5
    ensures (v == n as real - 0.5 || v == n as real + 0.5) ==> n % 2 == 0
  {
    var f := v.Floor;
    var frac := v - f as real;
    if frac < 0.5 then f
    else if frac > 0.5 then f + 1
    else if f % 2 == 0 then f else f + 1
  }

  /** A fraction of a non-negative quantity lies between zero and the quantity. */
  lemma FractionOf(u: real, v: real)
    ensures 0.0 <= u <= 1.0 && v >= 0.0 ==> 0.0 <= u * v <= v
  {
    if 0.0 <= u <= 1.0 && v >= 0.0 {
      NonNegMul(u, v);
      NonNegMul(1.0 - u, v);
    }
  }

  /** A whole number rounds to itself. */
  lemma RoundWhole(j: int)
    ensures RoundHalfEven(j as real) == j
  {
  }

  /** 1 when the flag is set, 0 otherwise (the contribution of one rotation key). */
  function Indicator(b: bool): (r: real)
    ensures b <==> r == 1.0
    ensures !b <==> r == 0.0
  {
    if b then 1.0 else 0.0
  }

  // Real-arithmetic facts the interpolation proofs use.

  lemma MulDivCancel(a: real, w: real)
    requires w != 0.0
    ensures (a * w) / w == a
  {
  }

  lemma DivMulCancel(a: real, w: real)
    requires w != 0.0
    ensures (a / w) * w == a
  {
  }

  lemma DivMonotone(a: real, b: real, w: real)
    requires w > 0.0 && a <= b
    ensures a / w <= b / w
  {
  }

  lemma NonNegMul(a: real, b: real)
    requires a >= 0.0 && b >= 0.0
    ensures a * b >= 0.0
  {
  }

  lemma ConvexCombination(y0: real, y1: real, t: real, lo: real, hi: real)
    requires 0.0 <= t <= 1.0
    requires lo <= y0 <= hi && lo <= y1 <= hi
    ensures lo <= y0 + t * (y1 - y0) <= hi
  {
    NonNegMul(t, y1 - lo);
    NonNegMul(1.0 - t, y0 - lo);
    NonNegMul(t, hi - y1);
    NonNegMul(1.0 - t, hi - y0);
  }

  lemma DivOfSum(a: real, b: real, w: real)
    requires w != 0.0
    ensures (a + b) / w == a / w + b / w
  {
    DivMulCancel(a, w);
    DivMulCancel(b, w);
    MulDivCancel(a / w + b / w, w);
  }

  /** One more step of width w along a grid that starts at a. */
  lemma GridStep(a: real, j: int, w: real)
    ensures a + j as real * w + w == a + (j + 1) as real * w
  {
  }

  /** Two runs of whole widths laid end to end. */
  lemma SumOfMultiples(a: int, b: int, w: real)
    ensures a as real * w + b as real * w == (a + b) as real * w
  {
  }

  /** Distance from grid sample i, measured in segment widths. */
  lemma SegmentOffset(pos: real, i: int, w: real)
    requires w != 0.0
    ensures (pos - i as real * w) / w == pos / w - i as real
  {
    DivOfSum(pos, -(i as real * w), w);
    MulDivCancel(-(i as real), w);
  }
}
