/**
 * The numeric primitives the drought core relies on, over exact reals:
 * `Math.abs`, `Math.min`, `Math.max`, `Math.round`, `Number.prototype.toFixed`,
 * the `reduce((a, b) => a + b, 0)` sum, and what is assumed of `Math.sqrt`.
 */
module Numerics {

  function Abs(x: real): (r: real)
    ensures 0.0 <= r && (r == x || r == -x)
  {
    if x < 0.0 then -x else x
  }

  function Min(a: real, b: real): (r: real)
    ensures r <= a && r <= b && (r == a || r == b)
  {
    if a <= b then a else b
  }

  function Max(a: real, b: real): (r: real)
    ensures a <= r && b <= r && (r == a || r == b)
  {
    if a <= b then b else a
  }

  /** `Math.round`: the nearest integer, a half rounded towards +infinity. */
  function MathRound(x: real): (r: int)
    ensures x - 0.5 < r as real <= x + 0.5
  {
    (x + 0.5).Floor
  }

  /** Rounding a value that lies between two integers stays between them. */
  lemma MathRoundWithin(x: real, lo: int, hi: int)
    requires lo as real <= x <= hi as real
    ensures lo <= MathRound(x) <= hi
  {
  }

  function Pow10(digits: nat): (p: nat)
    ensures 1 <= p
  {
    if digits == 0 then 1 else 10 * Pow10(digits - 1)
  }

  /** The number of whole units of 1/scale nearest to a non-negative y, a half rounded up. */
  function UnitsHalfUp(y: real, scale: nat): (k: int)
    requires 0.0 <= y && 1 <= scale
    ensures 0 <= k
  {
    (y * scale as real + 0.5).Floor
  }

  /** Rounds a non-negative number to the nearest whole multiple of 1/scale, a half rounded up. */
  function RoundHalfUp(y: real, scale: nat): (r: real)
    requires 0.0 <= y && 1 <= scale
  {
    UnitsHalfUp(y, scale) as real / scale as real
  }

  lemma ScaleBetween(y: real, s: real, lo: real, hi: real)
    requires 0.0 < s && lo <= y <= hi
    ensures lo * s <= y * s <= hi * s
  {
  }

  lemma UnscaleBetween(k: real, s: real, lo: real, hi: real)
    requires 0.0 < s && lo * s <= k <= hi * s
    ensures lo <= k / s <= hi
  {
  }

  /** Rounding to a multiple of 1/scale moves a value by at most half a unit. */
  lemma RoundHalfUpError(y: real, scale: nat)
    requires 0.0 <= y && 1 <= scale
    ensures 0.0 <= RoundHalfUp(y, scale)
    ensures -0.5 < (RoundHalfUp(y, scale) - y) * scale as real <= 0.5
  {
    var s := scale as real;
    var k := UnitsHalfUp(y, scale) as real;
    assert y * s - 0.5 < k <= y * s + 0.5;
    assert (k / s - y) * s == k - y * s;
  }

  /** The floor of a value in [lo, hi + 1) lies in [lo, hi]. */
  lemma FloorWithin(v: real, lo: int, hi: int)
    requires lo as real <= v < hi as real + 1.0
    ensures lo <= v.Floor <= hi
  {
  }

  /** Between two integers, y counts between as many units of 1/scale as they do. */
  lemma UnitsHalfUpWithin(y: real, scale: nat, lo: int, hi: int)
    requires 0.0 <= y && 1 <= scale
    requires lo as real <= y <= hi as real
    ensures lo * scale <= UnitsHalfUp(y, scale) <= hi * scale
  {
    var s := scale as real;
    ProductAsReal(lo, scale);
    ProductAsReal(hi, scale);
    ScaleBetween(y, s, lo as real, hi as real);
    FloorWithin(y * s + 0.5, lo * scale, hi * scale);
  }

  lemma IntBetweenAsReal(k: int, scale: nat, lo: int, hi: int)
    requires lo * scale <= k <= hi * scale
    ensures lo as real * scale as real <= k as real <= hi as real * scale as real
  {
    ProductAsReal(lo, scale);
    ProductAsReal(hi, scale);
  }

  /** Rounding to a multiple of 1/scale keeps a value between two integers between them. */
  lemma RoundHalfUpWithin(y: real, scale: nat, lo: int, hi: int)
    requires 0.0 <= y && 1 <= scale
    requires lo as real <= y <= hi as real
    ensures lo as real <= RoundHalfUp(y, scale) <= hi as real
  {
    var k := UnitsHalfUp(y, scale);
    UnitsHalfUpWithin(y, scale, lo, hi);
    IntBetweenAsReal(k, scale, lo, hi);
    UnscaleBetween(k as real, scale as real, lo as real, hi as real);
  }

  lemma ProductAsReal(a: int, b: int)
    ensures (a * b) as real == a as real * b as real
  {
  }

  /** r is a whole number of units of 1/scale. */
  predicate WholeUnitsOf(r: real, scale: nat) {
    (r * scale as real).Floor as real == r * scale as real
  }

  /**
   * `Number(x.toFixed(digits))`: x rounded to `digits` decimals, a half rounded away
   * from zero (toFixed rounds the magnitude and then restores the sign).
   */
  function ToFixed(x: real, digits: nat): (r: real)
    ensures WholeUnitsOf(r, Pow10(digits))
    ensures Abs(r - x) * Pow10(digits) as real <= 0.5
    ensures 0.0 <= x ==> 0.0 <= r
    ensures x <= 0.0 ==> r <= 0.0
    ensures Abs(r - x) * Pow10(digits) as real == 0.5 ==> Abs(x) < Abs(r)
  {
    SignedHalfUpFacts(x, Pow10(digits));
    SignedHalfUp(x, Pow10(digits))
  }

  /** Rounds the magnitude of x to a multiple of 1/scale and restores the sign. */
  function SignedHalfUp(x: real, scale: nat): real
    requires 1 <= scale
  {
    if x < 0.0 then -RoundHalfUp(-x, scale) else RoundHalfUp(x, scale)
  }

  /** The signed rounding is whole in units of 1/scale, within half a unit, keeps the sign, and breaks ties away from zero. */
  lemma SignedHalfUpFacts(x: real, scale: nat)
    requires 1 <= scale
    ensures WholeUnitsOf(SignedHalfUp(x, scale), scale)
    ensures Abs(SignedHalfUp(x, scale) - x) * scale as real <= 0.5
    ensures 0.0 <= x ==> 0.0 <= SignedHalfUp(x, scale)
    ensures x <= 0.0 ==> SignedHalfUp(x, scale) <= 0.0
    ensures Abs(SignedHalfUp(x, scale) - x) * scale as real == 0.5 ==> Abs(x) < Abs(SignedHalfUp(x, scale))
  {
    if x < 0.0 {
      RoundedMagnitude(-x, scale);
    } else {
      RoundedMagnitude(x, scale);
    }
  }

  /** The rounded magnitude, with either sign, is whole in units of 1/scale and within half a unit. */
  lemma RoundedMagnitude(y: real, scale: nat)
    requires 0.0 <= y && 1 <= scale
    ensures 0.0 <= RoundHalfUp(y, scale)
    ensures WholeUnitsOf(RoundHalfUp(y, scale), scale) && WholeUnitsOf(-RoundHalfUp(y, scale), scale)
    ensures Abs(RoundHalfUp(y, scale) - y) * scale as real <= 0.5
    ensures Abs(-RoundHalfUp(y, scale) - -y) * scale as real <= 0.5
    ensures Abs(RoundHalfUp(y, scale) - y) * scale as real == 0.5 ==> y < RoundHalfUp(y, scale)
    ensures Abs(-RoundHalfUp(y, scale) - -y) * scale as real == 0.5 ==> y < RoundHalfUp(y, scale)
  {
    RoundHalfUpError(y, scale);
    RoundHalfUpUnits(y, scale);
    WholeUnitsNegated(RoundHalfUp(y, scale), scale, UnitsHalfUp(y, scale));
  }

  /** The rounded value counts exactly its whole units of 1/scale. */
  lemma RoundHalfUpUnits(y: real, scale: nat)
    requires 0.0 <= y && 1 <= scale
    ensures RoundHalfUp(y, scale) * scale as real == UnitsHalfUp(y, scale) as real
  {
  }

  /** A value worth k units of 1/scale, and its negation, are whole numbers of units. */
  lemma WholeUnitsNegated(r: real, scale: nat, k: int)
    requires r * scale as real == k as real
    ensures WholeUnitsOf(r, scale) && WholeUnitsOf(-r, scale)
  {
    assert (-r) * scale as real == (-k) as real;
  }

  /** toFixed keeps a number that lies between two integers between them. */
  lemma ToFixedWithin(x: real, digits: nat, lo: int, hi: int)
    requires lo as real <= x <= hi as real
    ensures lo as real <= ToFixed(x, digits) <= hi as real
  {
    if x < 0.0 {
      RoundHalfUpWithin(-x, Pow10(digits), -hi, -lo);
    } else {
      RoundHalfUpWithin(x, Pow10(digits), lo, hi);
    }
  }

  /** A product of two positive numbers is positive. */
  lemma ProductPositive(a: real, b: real, p: real)
    requires 0.0 < a && 0.0 < b && p == a * b
    ensures 0.0 < p
  {
  }

  /** A square is never negative, and positive unless its root is zero. */
  lemma SquareSign(x: real, s: real)
    requires s == x * x
    ensures 0.0 <= s
    ensures x != 0.0 ==> 0.0 < s
  {
    if x > 0.0 {
      ProductPositive(x, x, s);
    } else if x < 0.0 {
      ProductPositive(-x, -x, s);
    }
  }

  /** Between non-negative numbers, a smaller square means a smaller number. */
  lemma SquareLess(a: real, b: real)
    requires 0.0 <= a && 0.0 <= b && a * a < b * b
    ensures a < b
  {
  }

  /** What is assumed of `Math.sqrt`: on a non-negative argument it is the non-negative square root. */
  ghost predicate IsSqrt(sqrt: real -> real) {
    forall x: real :: 0.0 <= x ==> 0.0 <= sqrt(x) && sqrt(x) * sqrt(x) == x
  }

  /** `xs.reduce((a, b) => a + b, 0)`: a left-to-right sum. */
  function Sum(xs: seq<real>): real {
    if |xs| == 0 then 0.0 else Sum(xs[..|xs| - 1]) + xs[|xs| - 1]
  }

  /** Arithmetic mean, as `sum / length`. */
  function Mean(xs: seq<real>): real
    requires |xs| > 0
  {
    Sum(xs) / |xs| as real
  }

  /** The sum of a constant sequence is its length times the constant. */
  lemma {:induction false} SumConstant(xs: seq<real>, c: real)
    requires forall i :: 0 <= i < |xs| ==> xs[i] == c
    ensures Sum(xs) == |xs| as real * c
  {
    if |xs| > 0 {
      SumConstant(xs[..|xs| - 1], c);
    }
  }

  /** The sum of non-negative terms is at least its last term. */
  lemma {:induction false} SumAtLeastLast(xs: seq<real>)
    requires |xs| > 0
    requires forall i :: 0 <= i < |xs| ==> 0.0 <= xs[i]
    ensures xs[|xs| - 1] <= Sum(xs)
  {
    if |xs| > 1 {
      SumAtLeastLast(xs[..|xs| - 1]);
    }
  }

  /** A sum of terms lying between lo and hi lies between |xs|·lo and |xs|·hi. */
  lemma {:induction false} SumBounds(xs: seq<real>, lo: real, hi: real)
    requires forall i :: 0 <= i < |xs| ==> lo <= xs[i] <= hi
    ensures |xs| as real * lo <= Sum(xs) <= |xs| as real * hi
  {
    if |xs| > 0 {
      SumBounds(xs[..|xs| - 1], lo, hi);
    }
  }

  /** The mean of values between lo and hi lies between lo and hi. */
  lemma MeanBounds(xs: seq<real>, lo: real, hi: real)
    requires |xs| > 0
    requires forall i :: 0 <= i < |xs| ==> lo <= xs[i] <= hi
    ensures lo <= Mean(xs) <= hi
  {
    SumBounds(xs, lo, hi);
    UnscaleBetween(Sum(xs), |xs| as real, lo, hi);
  }

  /** The mean of a constant sequence is that constant. */
  lemma MeanConstant(xs: seq<real>, c: real)
    requires |xs| > 0
    requires forall i :: 0 <= i < |xs| ==> xs[i] == c
    ensures Mean(xs) == c
  {
    SumConstant(xs, c);
  }
}
