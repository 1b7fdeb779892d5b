/** Enemy.cpp / Enemy.h: an enemy that walks left at a constant speed and rocks its pitch
    back and forth once per second. The rocking sine value is given to Update as a
    number; the world transform is reduced to its translation and rotation. */
module Enemy {
  import opened Numeric
  import opened VectorMath

  const WalkSpeed: real := 0.05
  const WalkMotionAngleStart: real := -10.0
  const WalkMotionAngleEnd: real := 10.0
  const WalkMotionTime: real := 1.0

  /** The starting place and the walking velocity set by Initialize. */
  const StartTranslation: Vector3 := Vector3(14.0, 1.0, 0.0)
  const WalkVelocity: Vector3 := Vector3(-WalkSpeed, 0.0, 0.0)

  /** The pitch in degrees for a sine value param: the start angle at param = -1, the end
      angle at param = 1. */
  function PitchDegree(param: real): (r: real)
    ensures -1.0 <= param <= 1.0 ==> WalkMotionAngleStart <= r <= WalkMotionAngleEnd
    ensures param == -1.0 ==> r == WalkMotionAngleStart
    ensures param == 1.0 ==> r == WalkMotionAngleEnd
    ensures param == 0.0 ==> r == 0.0
  {
    WalkMotionAngleStart + (WalkMotionAngleEnd - WalkMotionAngleStart) * (param + 1.0) / 2.0
  }

  /** The pitch grows with the sine value. */
  lemma {:induction false} PitchDegreeMonotone(p1: real, p2: real)
    requires p1 <= p2
    ensures PitchDegree(p1) <= PitchDegree(p2)
  {
  }

  /** degree * (3.14159265f / 180.0f); the literal rounds to the same float as pi. */
  function DegreesToRadians(degree: real): (r: real)
    ensures degree == 0.0 ==> r == 0.0
    ensures 0.0 <= degree ==> 0.0 <= r
    ensures degree <= 0.0 ==> r <= 0.0
  {
    degree * (PiF / 180.0)
  }

  /** The recorded pitch in radians never exceeds 10 degrees either way. */
  lemma {:induction false} PitchRadiansBounded(param: real)
    requires -1.0 <= param <= 1.0
    ensures -10.0 * (PiF / 180.0) <= DegreesToRadians(PitchDegree(param)) <= 10.0 * (PiF / 180.0)
  {
    var d := PitchDegree(param);
    MulMonotoneLeft(PiF / 180.0, -10.0, d);
    MulMonotoneLeft(PiF / 180.0, d, 10.0);
  }

  class Enemy {
    var translation: Vector3
    var rotation: Vector3
    var velocity: Vector3
    var walkTimer: real

    /** The enemy always walks at the constant velocity Initialize gave it. */
    ghost predicate Valid()
      reads this
    {
      velocity == WalkVelocity && 0.0 <= walkTimer
    }

    /** Initialize: the fixed start, facing the player (yaw pi/2), walking left, with the
        timer at 0. The engine's transform initialisation leaves the other angles at 0. */
    constructor ()
      ensures Valid()
      ensures translation == StartTranslation && rotation == Vector3(0.0, PiF / 2.0, 0.0)
      ensures velocity == WalkVelocity && walkTimer == 0.0
    {
      var initialRotation := Vector3(0.0, 0.0, 0.0);
      translation := Vector3(14.0, 1.0, 0.0);
      rotation := initialRotation.(y := PiF / 2.0);
      velocity := Vector3(-WalkSpeed, 0.0, 0.0);
      walkTimer := 0.0;
    }

    /** Update for one frame. param stands for sin(2 pi * walkTimer_ / kWalkMotionTime)
        taken after the timer has advanced. Only the translation, the timer and the
        pitch change. */
    method Update(param: real)
      requires Valid()
      modifies this`translation, this`walkTimer, this`rotation
      ensures Valid()
      ensures translation == Add(old(translation), velocity)
      ensures walkTimer == old(walkTimer) + FrameTime
      ensures rotation == old(rotation).(x := DegreesToRadians(PitchDegree(param)))
    {
      translation := Add(translation, velocity);

      walkTimer := walkTimer + 1.0 / 60.0;

      var degree := WalkMotionAngleStart + (WalkMotionAngleEnd - WalkMotionAngleStart) * (param + 1.0) / 2.0;
      rotation := rotation.(x := degree * (PiF / 180.0));
    }
  }

  /** Where the enemy stands after n frames: the start moved n times by its velocity. */
  function WalkedTranslation(n: nat): (r: Vector3)
    ensures r == Vector3(14.0 - WalkSpeed * n as real, 1.0, 0.0)
  {
    if n == 0 then StartTranslation else Add(WalkedTranslation(n - 1), WalkVelocity)
  }

  /** A freshly initialised enemy stepped once per frame, with params[k] the sine value
      of frame k: it stands where WalkedTranslation says, its timer has counted the frames,
      and its pitch is that of the last frame. */
  method Walk(params: seq<real>) returns (e: Enemy)
    ensures fresh(e) && e.Valid()
    ensures e.translation == WalkedTranslation(|params|)
    ensures e.walkTimer == FrameTime * |params| as real
    ensures e.velocity == WalkVelocity && e.rotation.y == PiF / 2.0
    ensures |params| > 0 ==> e.rotation.x == DegreesToRadians(PitchDegree(params[|params| - 1]))
  {
    e := new Enemy();
    for k := 0 to |params|
      invariant e.Valid()
      invariant e.translation == WalkedTranslation(k)
      invariant e.walkTimer == FrameTime * k as real
      invariant e.rotation.y == PiF / 2.0
      invariant k > 0 ==> e.rotation.x == DegreesToRadians(PitchDegree(params[k - 1]))
    {
      e.Update(params[k]);
    }
  }
}
