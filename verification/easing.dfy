/**
 * The polynomial easing curves of the library: each maps a normalised time
 * ratio x (nominally in [0, 1]) to a normalised progress value. Arithmetic is
 * over `real`, so the boundary and range facts below are exact.
 */
module Easing {

  /** b raised to a whole-number power; stands in for Math.pow(b, n.0). */
  function Pow(b: real, n: nat): real
  {
    if n == 0 then 1.0 else b * Pow(b, n - 1)
  }

  function Linear(x: real): real
  {
    x
  }

  function EaseInCubic(x: real): real
  {
    x * x * x
  }

  function EaseOutCubic(x: real): real
  {
    1.0 - Pow(1.0 - x, 3)
  }

  /** The branch of easeInOutCubic taken below the split point 0.5. */
  function InOutCubicLow(x: real): real
  {
    4.0 * x * x * x
  }

  /** The branch of easeInOutCubic taken from the split point 0.5 on. */
  function InOutCubicHigh(x: real): real
  {
    1.0 - Pow(-2.0 * x + 2.0, 3) / 2.0
  }

  function EaseInOutCubic(x: real): real
  {
    if x < 0.5 then InOutCubicLow(x) else InOutCubicHigh(x)
  }

  function EaseInQuint(x: real): real
  {
    x * x * x * x * x
  }

  function EaseOutQuint(x: real): real
  {
    1.0 - Pow(1.0 - x, 5)
  }

  /** The branch of easeInOutQuint taken below the split point 0.5. */
  function InOutQuintLow(x: real): real
  {
    16.0 * x * x * x * x * x
  }

  /** The branch of easeInOutQuint taken from the split point 0.5 on. */
  function InOutQuintHigh(x: real): real
  {
    1.0 - Pow(-2.0 * x + 2.0, 5) / 2.0
  }

  function EaseInOutQuint(x: real): real
  {
    if x < 0.5 then InOutQuintLow(x) else InOutQuintHigh(x)
  }

  /** Names for the polynomial curves, so that facts can be stated for all of them at once. */
  datatype Curve = LinearCurve | InCubic | OutCubic | InOutCubic | InQuint | OutQuint | InOutQuint

  function Ease(c: Curve, x: real): real
  {
    match c
    case LinearCurve => Linear(x)
    case InCubic => EaseInCubic(x)
    case OutCubic => EaseOutCubic(x)
    case InOutCubic => EaseInOutCubic(x)
    case InQuint => EaseInQuint(x)
    case OutQuint => EaseOutQuint(x)
    case InOutQuint => EaseInOutQuint(x)
  }

  /** The curve as a function value, the form in which an engine receives it. */
  function AsFunction(c: Curve): real -> real
  {
    x => Ease(c, x)
  }

  /** f sends every ratio in [0, 1] to a progress value in [0, 1]. */
  ghost predicate KeepsUnitInterval(f: real -> real)
  {
    forall x :: 0.0 <= x <= 1.0 ==> 0.0 <= f(x) <= 1.0
  }

  /** f never decreases on [0, 1]. */
  ghost predicate MonotoneOnUnit(f: real -> real)
  {
    forall x, y :: 0.0 <= x <= y <= 1.0 ==> f(x) <= f(y)
  }

  // ---------------------------------------------------------------------
  // Facts about Pow
  // ---------------------------------------------------------------------

  lemma ProductInUnit(a: real, b: real)
    requires 0.0 <= a <= 1.0 && 0.0 <= b <= 1.0
    ensures 0.0 <= a * b <= a
  {
  }

  lemma ProductMonotone(a: real, b: real, c: real, d: real)
    requires 0.0 <= a <= b && 0.0 <= c <= d
    ensures a * c <= b * d
  {
  }

  /** A power of a ratio in [0, 1] stays in [0, 1]. */
  lemma {:induction false} PowInUnit(b: real, n: nat)
    requires 0.0 <= b <= 1.0
    ensures 0.0 <= Pow(b, n) <= 1.0
  {
    if n > 0 {
      PowInUnit(b, n - 1);
      ProductInUnit(Pow(b, n - 1), b);
      assert Pow(b, n) == b * Pow(b, n - 1) == Pow(b, n - 1) * b;
    }
  }

  /** On non-negative bases, raising to a power preserves order. */
  lemma {:induction false} PowMonotone(a: real, b: real, n: nat)
    requires 0.0 <= a <= b
    ensures 0.0 <= Pow(a, n) <= Pow(b, n)
  {
    if n > 0 {
      PowMonotone(a, b, n - 1);
      ProductMonotone(a, b, Pow(a, n - 1), Pow(b, n - 1));
    }
  }

  lemma PowCube(b: real)
    ensures Pow(b, 3) == b * b * b
  {
    assert Pow(b, 1) == b;
    assert Pow(b, 2) == b * b;
  }

  lemma PowFifth(b: real)
    ensures Pow(b, 5) == b * b * b * b * b
  {
    PowCube(b);
    assert Pow(b, 4) == b * (b * b * b);
  }

  // ---------------------------------------------------------------------
  // Facts about the curves
  // ---------------------------------------------------------------------

  /** `linear` is the identity. */
  lemma LinearIsIdentity(x: real)
    ensures Ease(LinearCurve, x) == x
  {
  }

  /** Every polynomial curve starts at 0 and ends at exactly 1. */
  lemma Endpoints(c: Curve)
    ensures Ease(c, 0.0) == 0.0
    ensures Ease(c, 1.0) == 1.0
  {
  }

  /** easeInOutCubic's two branches meet at the split point 0.5, both giving 0.5. */
  lemma InOutCubicBranchesAgree()
    ensures InOutCubicLow(0.5) == 0.5 == InOutCubicHigh(0.5)
  {
  }

  /** easeInOutQuint's two branches meet at the split point 0.5, both giving 0.5. */
  lemma InOutQuintBranchesAgree()
    ensures InOutQuintLow(0.5) == 0.5 == InOutQuintHigh(0.5)
  {
  }

  /** Ease-out is ease-in reflected through the point (0.5, 0.5). */
  lemma OutCubicReflectsIn(x: real)
    ensures EaseOutCubic(x) == 1.0 - EaseInCubic(1.0 - x)
  {
    PowCube(1.0 - x);
  }

  lemma OutQuintReflectsIn(x: real)
    ensures EaseOutQuint(x) == 1.0 - EaseInQuint(1.0 - x)
  {
    PowFifth(1.0 - x);
  }

  /** The low branch of easeInOutCubic is the unit cubic scaled into [0, 0.5]. */
  lemma InOutCubicLowScaled(x: real)
    ensures InOutCubicLow(x) == Pow(2.0 * x, 3) / 2.0
  {
    PowCube(2.0 * x);
  }

  lemma InOutQuintLowScaled(x: real)
    ensures InOutQuintLow(x) == Pow(2.0 * x, 5) / 2.0
  {
    PowFifth(2.0 * x);
  }

  /** The in-out curves are point-symmetric about (0.5, 0.5), for every real input. */
  lemma InOutCubicSymmetric(x: real)
    ensures EaseInOutCubic(1.0 - x) == 1.0 - EaseInOutCubic(x)
  {
    InOutCubicLowScaled(x);
    InOutCubicLowScaled(1.0 - x);
    assert -2.0 * (1.0 - x) + 2.0 == 2.0 * x;
    assert -2.0 * x + 2.0 == 2.0 * (1.0 - x);
    if x == 0.5 {
      PowCube(1.0);
    }
  }

  lemma InOutQuintSymmetric(x: real)
    ensures EaseInOutQuint(1.0 - x) == 1.0 - EaseInOutQuint(x)
  {
    InOutQuintLowScaled(x);
    InOutQuintLowScaled(1.0 - x);
    assert -2.0 * (1.0 - x) + 2.0 == 2.0 * x;
    assert -2.0 * x + 2.0 == 2.0 * (1.0 - x);
    if x == 0.5 {
      PowFifth(1.0);
    }
  }

  /** On [0, 1] every polynomial curve yields a progress value in [0, 1]. */
  lemma InUnit(c: Curve, x: real)
    requires 0.0 <= x <= 1.0
    ensures 0.0 <= Ease(c, x) <= 1.0
  {
    match c
    case LinearCurve =>
    case InCubic =>
      PowCube(x);
      PowInUnit(x, 3);
    case OutCubic =>
      PowInUnit(1.0 - x, 3);
    case InOutCubic =>
      if x < 0.5 {
        InOutCubicLowScaled(x);
        PowInUnit(2.0 * x, 3);
      } else {
        PowInUnit(-2.0 * x + 2.0, 3);
      }
    case InQuint =>
      PowFifth(x);
      PowInUnit(x, 5);
    case OutQuint =>
      PowInUnit(1.0 - x, 5);
    case InOutQuint =>
      if x < 0.5 {
        InOutQuintLowScaled(x);
        PowInUnit(2.0 * x, 5);
      } else {
        PowInUnit(-2.0 * x + 2.0, 5);
      }
  }

  /** On [0, 1] every polynomial curve is non-decreasing. */
  lemma Monotone(c: Curve, x: real, y: real)
    requires 0.0 <= x <= y <= 1.0
    ensures Ease(c, x) <= Ease(c, y)
  {
    match c
    case LinearCurve =>
    case InCubic =>
      PowCube(x);
      PowCube(y);
      PowMonotone(x, y, 3);
    case OutCubic =>
      PowMonotone(1.0 - y, 1.0 - x, 3);
    case InOutCubic =>
      if y < 0.5 {
        InOutCubicLowScaled(x);
        InOutCubicLowScaled(y);
        PowMonotone(2.0 * x, 2.0 * y, 3);
      } else if x < 0.5 {
        InOutCubicLowScaled(x);
        PowInUnit(2.0 * x, 3);
        PowInUnit(-2.0 * y + 2.0, 3);
      } else {
        PowMonotone(-2.0 * y + 2.0, -2.0 * x + 2.0, 3);
      }
    case InQuint =>
      PowFifth(x);
      PowFifth(y);
      PowMonotone(x, y, 5);
    case OutQuint =>
      PowMonotone(1.0 - y, 1.0 - x, 5);
    case InOutQuint =>
      if y < 0.5 {
        InOutQuintLowScaled(x);
        InOutQuintLowScaled(y);
        PowMonotone(2.0 * x, 2.0 * y, 5);
      } else if x < 0.5 {
        InOutQuintLowScaled(x);
        PowInUnit(2.0 * x, 5);
        PowInUnit(-2.0 * y + 2.0, 5);
      } else {
        PowMonotone(-2.0 * y + 2.0, -2.0 * x + 2.0, 5);
      }
  }

  /** Each curve, handed to an engine as a function value, keeps progress in [0, 1] and never decreases. */
  lemma CurveIsWellBehaved(c: Curve)
    ensures KeepsUnitInterval(AsFunction(c))
    ensures MonotoneOnUnit(AsFunction(c))
  {
    forall x | 0.0 <= x <= 1.0
      ensures 0.0 <= AsFunction(c)(x) <= 1.0
    {
      InUnit(c, x);
    }
    forall x, y | 0.0 <= x <= y <= 1.0
      ensures AsFunction(c)(x) <= AsFunction(c)(y)
    {
      Monotone(c, x, y);
    }
  }
}
