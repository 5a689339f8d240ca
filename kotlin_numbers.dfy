/**
 * The parts of Kotlin's number semantics that the measurement code relies on:
 * Float division (including the non-finite results of dividing by zero),
 * the saturating Float-to-integer conversions and truncating Int division.
 * Rounding of finite Float values is not modelled: finite values are reals.
 */
module KotlinNumbers {

  const INT_MIN: int := -0x8000_0000
  const INT_MAX: int := 0x7fff_ffff
  const LONG_MIN: int := -0x8000_0000_0000_0000
  const LONG_MAX: int := 0x7fff_ffff_ffff_ffff

  /** A Kotlin Float value. */
  datatype Float = Finite(value: real) | PositiveInfinity | NegativeInfinity | NaN

  /**
   * `a / b` on Floats. A zero divisor here is always positive zero (it is a
   * box width), so a positive dividend gives +Infinity, a negative one
   * -Infinity and zero gives NaN.
   */
  function Divide(a: real, b: real): (q: Float)
    ensures q.Finite? <==> b != 0.0
    ensures q.Finite? ==> q.value * b == a
    ensures b == 0.0 && a > 0.0 ==> q == PositiveInfinity
    ensures b == 0.0 && a < 0.0 ==> q == NegativeInfinity
    ensures b == 0.0 && a == 0.0 ==> q == NaN
  {
    if b != 0.0 then Finite(a / b)
    else if a > 0.0 then PositiveInfinity
    else if a < 0.0 then NegativeInfinity
    else NaN
  }

  /** `a * f` on Floats, where `a` is finite. */
  function Times(a: real, f: Float): (p: Float)
    ensures f.Finite? ==> p == Finite(a * f.value)
    ensures f.NaN? || (a == 0.0 && !f.Finite?) ==> p == NaN
    ensures a != 0.0 && f.PositiveInfinity? ==> p == if a > 0.0 then PositiveInfinity else NegativeInfinity
    ensures a != 0.0 && f.NegativeInfinity? ==> p == if a > 0.0 then NegativeInfinity else PositiveInfinity
  {
    match f
    case Finite(_) => Finite(a * f.value)
    case PositiveInfinity => if a > 0.0 then PositiveInfinity else if a < 0.0 then NegativeInfinity else NaN
    case NegativeInfinity => if a > 0.0 then NegativeInfinity else if a < 0.0 then PositiveInfinity else NaN
    case NaN => NaN
  }

  /** Rounds toward zero: the integer part of `x`. */
  function Truncate(x: real): (t: int)
    ensures x >= 0.0 ==> t as real <= x < t as real + 1.0
    ensures x <= 0.0 ==> t as real - 1.0 < x <= t as real
  {
    if x >= 0.0 then x.Floor else -((-x).Floor)
  }

  /**
   * The conversion shared by `Float.toInt()` and `Float.toLong()`: NaN becomes
   * zero, finite values are truncated toward zero, and everything outside
   * `lo..hi` (the infinities included) saturates at the nearer bound.
   */
  function ToIntegral(f: Float, lo: int, hi: int): (n: int)
    requires lo <= 0 <= hi
    ensures lo <= n <= hi
    ensures f.NaN? ==> n == 0
    ensures f.PositiveInfinity? ==> n == hi
    ensures f.NegativeInfinity? ==> n == lo
    ensures f.Finite? && 0.0 <= f.value < hi as real + 1.0 ==> n == f.value.Floor
    ensures f.Finite? && f.value >= hi as real ==> n == hi
    ensures f.Finite? && lo as real - 1.0 < f.value <= 0.0 ==> n == -((-f.value).Floor)
    ensures f.Finite? && f.value <= lo as real ==> n == lo
  {
    match f
    case NaN => 0
    case PositiveInfinity => hi
    case NegativeInfinity => lo
    case Finite(v) =>
      var t := Truncate(v);
      if t > hi then hi else if t < lo then lo else t
  }

  /** `Float.toInt()`. */
  function ToInt(f: Float): (n: int)
    ensures INT_MIN <= n <= INT_MAX
  {
    ToIntegral(f, INT_MIN, INT_MAX)
  }

  /** `Float.toLong()`. */
  function ToLong(f: Float): (n: int)
    ensures LONG_MIN <= n <= LONG_MAX
  {
    ToIntegral(f, LONG_MIN, LONG_MAX)
  }

  /** The integer conversions never decrease when their argument grows. */
  lemma ToIntegralMonotonic(x: real, y: real, lo: int, hi: int)
    requires lo <= 0 <= hi
    requires x <= y
    ensures ToIntegral(Finite(x), lo, hi) <= ToIntegral(Finite(y), lo, hi)
  {
    assert Truncate(x) <= Truncate(y);
  }

  /** Kotlin's `a / b` on Int, which rounds toward zero (unlike Dafny's `/`). */
  function IntDiv(a: int, b: int): (q: int)
    requires b > 0
    ensures a >= 0 ==> 0 <= a - q * b < b
    ensures a <= 0 ==> -b < a - q * b <= 0
  {
    if a >= 0 then a / b else -((-a) / b)
  }

  /** A product with a finite quotient is finite: `px * (c / refPx)` when `refPx` is not zero. */
  lemma ScaleIsFinite(px: real, c: real, refPx: real)
    ensures refPx != 0.0 ==> Times(px, Divide(c, refPx)) == Finite(px * (c / refPx))
  {
  }
}
