/** Numeric helpers shared by every component: the standard-library clamp/min/max
    the game calls, float-to-integer truncation, the unsigned 32-bit index type,
    and the game's fixed constants (frame time, the float value of pi). */
module Numeric {

  /** The game's fixed time step, 1.0f / 60.0f, taken as an exact real. */
  const FrameTime: real := 1.0 / 60.0

  /** std::numbers::pi_v<float> (and the literal 3.14159265f): the float nearest to pi, exactly. */
  const PiF: real := 3.1415927410125732421875

  const Uint32Limit: int := 0x1_0000_0000

  /** uint32_t. */
  newtype uint32 = x: int | 0 <= x < 0x1_0000_0000

  /** std::clamp(v, lo, hi); the standard leaves lo > hi undefined, hence the precondition. */
  function Clamp(v: real, lo: real, hi: real): (r: real)
    requires lo <= hi
    ensures lo <= r <= hi
    ensures lo <= v <= hi ==> r == v
    ensures v < lo ==> r == lo
    ensures hi < v ==> r == hi
  {
    if v < lo then lo else if hi < v then hi else v
  }

  /** std::min(a, b). */
  function Min(a: real, b: real): (r: real)
    ensures r <= a && r <= b
    ensures r == a || r == b
  {
    if b < a then b else a
  }

  /** std::max(a, b). */
  function Max(a: real, b: real): (r: real)
    ensures a <= r && b <= r
    ensures r == a || r == b
  {
    if a < b then b else a
  }

  /** Truncation toward zero, as a C++ float-to-integer conversion performs it. */
  function Trunc(v: real): (r: int)
    ensures 0.0 <= v ==> 0 <= r && r as real <= v < r as real + 1.0
    ensures v < 0.0 ==> r <= 0 && r as real - 1.0 < v <= r as real
  {
    if 0.0 <= v then v.Floor else -((-v).Floor)
  }

  /** static_cast<uint32_t>(v) for a float v: defined only when the truncated value fits,
      that is when -1 < v < 2^32; anything else is undefined behaviour in C++. */
  function ToUint32(v: real): (r: uint32)
    requires -1.0 < v < Uint32Limit as real
    ensures r as int == Trunc(v)
    ensures 0.0 <= v ==> r as real <= v < r as real + 1.0
    ensures v < 0.0 ==> r == 0
  {
    Trunc(v) as uint32
  }

  lemma {:induction false} ClampMonotone(a: real, b: real, lo: real, hi: real)
    requires lo <= hi && a <= b
    ensures Clamp(a, lo, hi) <= Clamp(b, lo, hi)
  {
  }

  // ---- Small facts about products, stated over plain variables so that the
  //      solver's nonlinear reasoning is asked one step at a time. ----

  lemma {:induction false} MulMonotone(d: real, k1: real, k2: real)
    requires 0.0 <= d && k1 <= k2
    ensures d * k1 <= d * k2
  {
    assert d * k2 - d * k1 == d * (k2 - k1);
  }

  lemma {:induction false} MulMonotoneLeft(d: real, k1: real, k2: real)
    requires 0.0 <= d && k1 <= k2
    ensures k1 * d <= k2 * d
  {
    MulMonotone(d, k1, k2);
    assert k1 * d == d * k1 && k2 * d == d * k2;
  }

  /** Products of non-negative reals are monotone in both factors. */
  lemma {:induction false} ProductMonotone(a1: real, b1: real, a2: real, b2: real)
    requires 0.0 <= a1 <= a2 && 0.0 <= b1 <= b2
    ensures 0.0 <= a1 * b1 <= a2 * b2
  {
    MulMonotone(a1, b1, b2);
    MulMonotoneLeft(b2, a1, a2);
  }

  lemma {:induction false} MulNonNegative(a: real, b: real)
    requires 0.0 <= a && 0.0 <= b
    ensures 0.0 <= a * b
  {
  }

  lemma {:induction false} MulAtMostOne(a: real, b: real)
    requires 0.0 <= a <= 1.0 && 0.0 <= b <= 1.0
    ensures 0.0 <= a * b <= b
  {
    MulMonotone(b, a, 1.0);
    assert b * a == a * b;
  }

  /** d * k for k in [0, 1] lies between 0 and d. */
  lemma {:induction false} ScaledFraction(d: real, k: real)
    requires 0.0 <= k <= 1.0
    ensures 0.0 <= d ==> 0.0 <= d * k <= d
    ensures d < 0.0 ==> d <= d * k <= 0.0
  {
    if 0.0 <= d {
      MulMonotone(d, 0.0, k);
      MulMonotone(d, k, 1.0);
    } else {
      MulMonotone(-d, 0.0, k);
      MulMonotone(-d, k, 1.0);
      assert (-d) * k == -(d * k);
    }
  }

  /** d * k for k in [0, 1] lies between 0 and d, whatever the sign of d. Stated on a
      function so that callers see the product over their own terms. */
  function Scaled(d: real, k: real): (p: real)
    requires 0.0 <= k <= 1.0
    ensures 0.0 <= d ==> 0.0 <= p <= d
    ensures d < 0.0 ==> d <= p <= 0.0
  {
    assert d - d * k == d * (1.0 - k);
    d * k
  }

  /** start + (end - start) * k lies between start and end when k is in [0, 1]. */
  lemma {:induction false} BlendBetween(start: real, end: real, k: real)
    requires 0.0 <= k <= 1.0
    ensures Min(start, end) <= start + (end - start) * k <= Max(start, end)
  {
    assert Scaled(end - start, k) == (end - start) * k;
  }
}
