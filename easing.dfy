/** Easing.cpp: clamped cubic ease-out and quadratic ease-in between two values. */
module Easing {
  import opened Numeric

  /** 1 - (1 - t)^3, the ease-out curve before it is scaled (powf(1 - t, 3) taken exactly). */
  function EaseOutCurve(t: real): real
  {
    1.0 - (1.0 - t) * (1.0 - t) * (1.0 - t)
  }

  /** t^2, the ease-in curve. */
  function EaseInCurve(t: real): real
  {
    t * t
  }

  /** EaseOut(start, end, t): t is clamped into [0, 1] first. */
  function EaseOut(start: real, end: real, t: real): (r: real)
  {
    var c := Clamp(t, 0.0, 1.0);
    start + (end - start) * EaseOutCurve(c)
  }

  /** EaseIn(start, end, t): t is clamped into [0, 1] first. */
  function EaseIn(start: real, end: real, t: real): (r: real)
  {
    var c := Clamp(t, 0.0, 1.0);
    start + (end - start) * EaseInCurve(c)
  }

  // ---- The curves on [0, 1] ----

  /** a <= b in [0, 1] gives a^2 <= b^2 and a^3 <= b^3, all inside [0, 1]. */
  lemma {:induction false} PowersMonotone(a: real, b: real)
    requires 0.0 <= a <= b <= 1.0
    ensures 0.0 <= a * a <= b * b <= 1.0
    ensures 0.0 <= a * a * a <= b * b * b <= 1.0
  {
    ProductMonotone(a, a, b, b);
    ProductMonotone(b, b, 1.0, 1.0);
    ProductMonotone(a * a, a, b * b, b);
    ProductMonotone(b * b, b, 1.0, 1.0);
  }

  lemma {:induction false} CurvesBounded(t: real)
    requires 0.0 <= t <= 1.0
    ensures 0.0 <= EaseOutCurve(t) <= 1.0
    ensures 0.0 <= EaseInCurve(t) <= 1.0
  {
    PowersMonotone(1.0 - t, 1.0);
    PowersMonotone(t, 1.0);
  }

  /** Both curves are nondecreasing on [0, 1]. */
  lemma {:induction false} CurvesMonotone(c1: real, c2: real)
    requires 0.0 <= c1 <= c2 <= 1.0
    ensures EaseOutCurve(c1) <= EaseOutCurve(c2)
    ensures EaseInCurve(c1) <= EaseInCurve(c2)
  {
    var a, b := 1.0 - c2, 1.0 - c1;
    PowersMonotone(a, b);
    PowersMonotone(c1, c2);
    var a3, b3 := a * a * a, b * b * b;
    assert EaseOutCurve(c1) == 1.0 - b3 && EaseOutCurve(c2) == 1.0 - a3;
  }

  // ---- Properties of EaseOut and EaseIn ----

  /** Both functions read t only through its clamp into [0, 1]. */
  lemma {:induction false} ParameterIsClamped(start: real, end: real, t: real)
    ensures EaseOut(start, end, t) == EaseOut(start, end, Clamp(t, 0.0, 1.0))
    ensures EaseIn(start, end, t) == EaseIn(start, end, Clamp(t, 0.0, 1.0))
  {
  }

  /** At or before t = 0 both give start; at or after t = 1 both give end. */
  lemma {:induction false} Endpoints(start: real, end: real, t: real)
    ensures t <= 0.0 ==> EaseOut(start, end, t) == start && EaseIn(start, end, t) == start
    ensures 1.0 <= t ==> EaseOut(start, end, t) == end && EaseIn(start, end, t) == end
  {
    var d := end - start;
    var out0, in0, out1, in1 := EaseOutCurve(0.0), EaseInCurve(0.0), EaseOutCurve(1.0), EaseInCurve(1.0);
    assert out0 == 0.0 && in0 == 0.0 && out1 == 1.0 && in1 == 1.0;
    assert d * 0.0 == 0.0 && d * 1.0 == d;
  }

  /** The result always lies between start and end, inclusive. */
  lemma {:induction false} ResultBetween(start: real, end: real, t: real)
    ensures Min(start, end) <= EaseOut(start, end, t) <= Max(start, end)
    ensures Min(start, end) <= EaseIn(start, end, t) <= Max(start, end)
  {
    var c := Clamp(t, 0.0, 1.0);
    CurvesBounded(c);
    BlendBetween(start, end, EaseOutCurve(c));
    BlendBetween(start, end, EaseInCurve(c));
  }

  /** With start <= end, EaseOut is nondecreasing in t. */
  lemma {:induction false} EaseOutMonotone(start: real, end: real, t1: real, t2: real)
    requires start <= end && t1 <= t2
    ensures EaseOut(start, end, t1) <= EaseOut(start, end, t2)
  {
    var c1, c2 := Clamp(t1, 0.0, 1.0), Clamp(t2, 0.0, 1.0);
    ClampMonotone(t1, t2, 0.0, 1.0);
    CurvesMonotone(c1, c2);
    BlendMonotone(start, end, EaseOutCurve(c1), EaseOutCurve(c2));
  }

  /** With start <= end, EaseIn is nondecreasing in t. */
  lemma {:induction false} EaseInMonotone(start: real, end: real, t1: real, t2: real)
    requires start <= end && t1 <= t2
    ensures EaseIn(start, end, t1) <= EaseIn(start, end, t2)
  {
    var c1, c2 := Clamp(t1, 0.0, 1.0), Clamp(t2, 0.0, 1.0);
    ClampMonotone(t1, t2, 0.0, 1.0);
    CurvesMonotone(c1, c2);
    BlendMonotone(start, end, EaseInCurve(c1), EaseInCurve(c2));
  }

  lemma {:induction false} BlendMonotone(start: real, end: real, k1: real, k2: real)
    requires start <= end && k1 <= k2
    ensures start + (end - start) * k1 <= start + (end - start) * k2
  {
    MulMonotone(end - start, k1, k2);
  }
}
