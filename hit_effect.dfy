/** HitEffect.cpp / HitEffect.h: the hit flash. A circle and two ellipses grow along an
    ease-out curve for 0.15 s, then the effect fades out for 0.2 s and is dead. Only the
    scales, the opacity and the state machine are modelled; transforms and drawing are
    engine calls. */
module HitEffect {
  import opened Numeric
  import opened VectorMath
  import Easing

  /** The anonymous EaseOutCubic: t is clamped into [0, 1] and 1 - (1 - t)^3 returned. */
  function EaseOutCubic(t: real): (r: real)
    ensures 0.0 <= r <= 1.0
    ensures t <= 0.0 ==> r == 0.0
    ensures 1.0 <= t ==> r == 1.0
  {
    var c := Clamp(t, 0.0, 1.0);
    Easing.CurvesBounded(c);
    var u := 1.0 - c;
    assert 1.0 - u * u * u == Easing.EaseOutCurve(c);
    1.0 - u * u * u
  }

  /** EaseOutCubic is the ease-out curve of the easing module applied to the clamped t. */
  lemma {:induction false} EaseOutCubicIsEaseOutCurve(t: real)
    ensures EaseOutCubic(t) == Easing.EaseOutCurve(Clamp(t, 0.0, 1.0))
  {
  }

  /** EaseOutCubic never decreases. */
  lemma {:induction false} EaseOutCubicMonotone(t1: real, t2: real)
    requires t1 <= t2
    ensures EaseOutCubic(t1) <= EaseOutCubic(t2)
  {
    ClampMonotone(t1, t2, 0.0, 1.0);
    Easing.CurvesMonotone(Clamp(t1, 0.0, 1.0), Clamp(t2, 0.0, 1.0));
    EaseOutCubicIsEaseOutCurve(t1);
    EaseOutCubicIsEaseOutCurve(t2);
  }

  /** HitEffect::State. */
  datatype State = Spread | Fade | Dead

  /** The position of a state in the order Spread, Fade, Dead. */
  function Rank(s: State): nat
  {
    match s
    case Spread => 0
    case Fade => 1
    case Dead => 2
  }

  const SpreadTime: real := 0.15
  const FadeTime: real := 0.20
  const NumEllipses: nat := 2

  /** Start and end scales of the spread phase. */
  const CircleStart: Vector3 := Vector3(0.6, 0.6, 1.0)
  const CircleEnd: Vector3 := Vector3(1.6, 1.6, 1.0)
  const EllipseStartX: real := 1.5
  const EllipseEndX: real := 3.0
  const EllipseStartY: real := 0.1
  const EllipseEndY: real := 0.2

  /** a + (b - a) e lies in [a, b] for e in [0, 1] and a <= b. */
  lemma {:induction false} GrowthBetween(a: real, b: real, e: real)
    requires a <= b && 0.0 <= e <= 1.0
    ensures a <= a + (b - a) * e <= b
  {
    BlendBetween(a, b, e);
  }

  class HitEffect {
    var state: State
    var timer: real
    var opacity: real
    var circleScale: Vector3
    /** ellipseWorldTransforms_, reduced to their scales. */
    var ellipseScales: array<Vector3>

    ghost predicate Valid()
      reads this
    {
      ellipseScales.Length == NumEllipses && 0.0 <= opacity <= 1.0
    }

    /** isDead(). */
    function IsDead(): (r: bool)
      reads this
      ensures r <==> state == Dead
    {
      state == Dead
    }

    /** Create: `new HitEffect()` value-initialises the effect, so timer_, which has no
        member initialiser, starts at 0; then Initialize sets the initial scales. */
    constructor ()
      ensures Valid() && fresh(ellipseScales)
      ensures state == Spread && timer == 0.0 && opacity == 1.0
      ensures circleScale == CircleStart
      ensures forall i | 0 <= i < NumEllipses :: ellipseScales[i] == Vector3(EllipseStartX, EllipseStartY, 1.0)
    {
      state := Spread;
      timer := 0.0;
      opacity := 1.0;
      circleScale := CircleStart;
      ellipseScales := new Vector3[NumEllipses](_ => Vector3(EllipseStartX, EllipseStartY, 1.0));
    }

    /** Update for one frame. */
    method Update()
      requires Valid()
      modifies this, ellipseScales
      ensures Valid() && ellipseScales == old(ellipseScales)
      // The timer always advances first, whatever the state.
      ensures var next := old(timer) + FrameTime;
              match old(state)
              case Spread =>
                var t := next / SpreadTime;
                var e := EaseOutCubic(t);
                circleScale == old(circleScale).(x := CircleStart.x + (CircleEnd.x - CircleStart.x) * e,
                                                 y := CircleStart.y + (CircleEnd.y - CircleStart.y) * e)
                && (forall i | 0 <= i < NumEllipses ::
                      ellipseScales[i] == old(ellipseScales[i]).(x := EllipseStartX + (EllipseEndX - EllipseStartX) * e,
                                                                 y := EllipseStartY + (EllipseEndY - EllipseStartY) * e))
                && opacity == old(opacity)
                && (t >= 1.0 ==> state == Fade && timer == 0.0)
                && (t < 1.0 ==> state == Spread && timer == next)
              case Fade =>
                var t := next / FadeTime;
                opacity == 1.0 - EaseOutCubic(t)
                && timer == next && circleScale == old(circleScale)
                && ellipseScales[..] == old(ellipseScales[..])
                && (t >= 1.0 ==> state == Dead)
                && (t < 1.0 ==> state == Fade)
              case Dead =>
                state == Dead && timer == next && opacity == old(opacity)
                && circleScale == old(circleScale) && ellipseScales[..] == old(ellipseScales[..])
      // The spread-phase bounds of the scales.
      ensures old(state) == Spread ==>
                CircleStart.x <= circleScale.x <= CircleEnd.x && CircleStart.y <= circleScale.y <= CircleEnd.y
                && forall i | 0 <= i < NumEllipses ::
                     EllipseStartX <= ellipseScales[i].x <= EllipseEndX
                     && EllipseStartY <= ellipseScales[i].y <= EllipseEndY
      // States only move forward, one step at a time.
      ensures Rank(old(state)) <= Rank(state) <= Rank(old(state)) + 1
    {
      timer := timer + 1.0 / 60.0;

      match state {
        case Spread =>
          SpreadStep();
        case Fade =>
          var t := timer / FadeTime;
          var e := EaseOutCubic(t);
          opacity := 1.0 - e;
          if t >= 1.0 {
            state := Dead;
          }
        case Dead =>
      }
    }

    /** The kSpread case of Update, after the timer has advanced: the scales follow the
        eased ratio, and the spread ends once the ratio reaches 1. */
    method SpreadStep()
      requires Valid()
      modifies this`circleScale, this`state, this`timer, ellipseScales
      ensures Valid()
      ensures var t := old(timer) / SpreadTime;
              var e := EaseOutCubic(t);
              && circleScale == old(circleScale).(x := CircleStart.x + (CircleEnd.x - CircleStart.x) * e,
                                                  y := CircleStart.y + (CircleEnd.y - CircleStart.y) * e)
              && (forall i | 0 <= i < NumEllipses ::
                    ellipseScales[i] == old(ellipseScales[i]).(x := EllipseStartX + (EllipseEndX - EllipseStartX) * e,
                                                               y := EllipseStartY + (EllipseEndY - EllipseStartY) * e))
              && (t >= 1.0 ==> state == Fade && timer == 0.0)
              && (t < 1.0 ==> state == old(state) && timer == old(timer))
      ensures CircleStart.x <= circleScale.x <= CircleEnd.x && CircleStart.y <= circleScale.y <= CircleEnd.y
      ensures forall i | 0 <= i < NumEllipses ::
                EllipseStartX <= ellipseScales[i].x <= EllipseEndX
                && EllipseStartY <= ellipseScales[i].y <= EllipseEndY
    {
      var t := timer / SpreadTime;
      var e := EaseOutCubic(t);
      var s0 := CircleStart;
      var s1 := CircleEnd;
      circleScale := circleScale.(x := s0.x + (s1.x - s0.x) * e);
      circleScale := circleScale.(y := s0.y + (s1.y - s0.y) * e);
      GrowthBetween(s0.x, s1.x, e);
      GrowthBetween(s0.y, s1.y, e);

      GrowEllipses(e);

      if t >= 1.0 {
        state := Fade;
        timer := 0.0;
      }
    }

    /** The ellipse loop of the kSpread case: each ellipse's x and y scale move from the
        start to the end scale by the eased weight e. */
    method GrowEllipses(e: real)
      requires Valid() && 0.0 <= e <= 1.0
      modifies ellipseScales
      ensures forall i | 0 <= i < NumEllipses ::
                ellipseScales[i] == old(ellipseScales[i]).(x := EllipseStartX + (EllipseEndX - EllipseStartX) * e,
                                                           y := EllipseStartY + (EllipseEndY - EllipseStartY) * e)
      ensures forall i | 0 <= i < NumEllipses ::
                EllipseStartX <= ellipseScales[i].x <= EllipseEndX
                && EllipseStartY <= ellipseScales[i].y <= EllipseEndY
    {
      var ex0, ex1 := EllipseStartX, EllipseEndX;
      var ey0, ey1 := EllipseStartY, EllipseEndY;
      GrowthBetween(ex0, ex1, e);
      GrowthBetween(ey0, ey1, e);
      for i := 0 to NumEllipses
        invariant forall k | 0 <= k < i ::
                    ellipseScales[k] == old(ellipseScales[k]).(x := ex0 + (ex1 - ex0) * e, y := ey0 + (ey1 - ey0) * e)
        invariant forall k | i <= k < NumEllipses :: ellipseScales[k] == old(ellipseScales[k])
      {
        ellipseScales[i] := ellipseScales[i].(x := ex0 + (ex1 - ex0) * e);
        ellipseScales[i] := ellipseScales[i].(y := ey0 + (ey1 - ey0) * e);
      }
    }
  }
}
