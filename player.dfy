/** Player.cpp / Player.h: grounded running with braking and a speed clamp, jumping,
    gravity with a fall-speed clamp, landing on the hard-coded floor y = 1, the timed
    smoothstep turn between the two facings, and the upward map-collision pass. */
module Player {
  import opened Numeric
  import opened VectorMath
  import MapChipField

  // ---- Constants of Player.h ----

  const TimeTurn: real := 0.3
  const Acceleration: real := 0.01
  const Attenuation: real := 0.1
  const LimitRunSpeed: real := 0.2
  const GravityAcceleration: real := 0.05
  const LimitFallSpeed: real := 0.3
  const JumpAcceleration: real := 0.65
  const Width: real := 0.8
  const Height: real := 0.8
  /** The hard-coded floor height of Update. */
  const Floor: real := 1.0
  /** The amount the turn timer loses per frame. */
  const TurnDecrement: real := 0.03
  /** Frames a full turn lasts: TimeTurn / TurnDecrement. */
  const TurnFrames: nat := 10

  /** Player::LRDirection. */
  datatype LRDirection = Right | Left

  /** Player::Corner, in the order of the enum (kNumCorner is the count). */
  datatype Corner = RightBottom | LeftBottom | RightTop | LeftTop

  const NumCorner: nat := 4

  /** static_cast<Corner>(i). */
  function CornerOf(i: nat): (c: Corner)
    requires i < NumCorner
  {
    if i == 0 then RightBottom else if i == 1 then LeftBottom else if i == 2 then RightTop else LeftTop
  }

  predicate IsRightCorner(c: Corner) { c == RightBottom || c == RightTop }

  predicate IsTopCorner(c: Corner) { c == RightTop || c == LeftTop }

  /** Player::CollisionMapInfo. */
  datatype CollisionMapInfo = CollisionMapInfo(isHitCeiling: bool, isGrounded: bool, isHitWall: bool,
                                               moveAmount: Vector3)

  /** CornerPosition: the centre moved half the width sideways and half the height up or
      down, towards the named corner of the 0.8 x 0.8 box. */
  function CornerPosition(center: Vector3, corner: Corner): (r: Vector3)
    ensures r.z == center.z
    ensures IsRightCorner(corner) ==> r.x == center.x + Width / 2.0
    ensures !IsRightCorner(corner) ==> r.x == center.x - Width / 2.0
    ensures IsTopCorner(corner) ==> r.y == center.y + Height / 2.0
    ensures !IsTopCorner(corner) ==> r.y == center.y - Height / 2.0
  {
    var offset :=
      match corner
      case RightBottom => Vector3(Width / 2.0, -Height / 2.0, 0.0)
      case LeftBottom => Vector3(-Width / 2.0, -Height / 2.0, 0.0)
      case RightTop => Vector3(Width / 2.0, Height / 2.0, 0.0)
      case LeftTop => Vector3(-Width / 2.0, Height / 2.0, 0.0);
    Add(center, offset)
  }

  /** Opposite corners are one width apart in x and one height apart in y, and the
      centre is their midpoint. */
  lemma {:induction false} CornersSpanTheBox(center: Vector3)
    ensures CornerPosition(center, RightTop).x - CornerPosition(center, LeftBottom).x == Width
    ensures CornerPosition(center, RightTop).y - CornerPosition(center, LeftBottom).y == Height
    ensures CornerPosition(center, LeftTop).x - CornerPosition(center, RightBottom).x == -Width
    ensures CornerPosition(center, LeftTop).y - CornerPosition(center, RightBottom).y == Height
    ensures Add(CornerPosition(center, RightTop), CornerPosition(center, LeftBottom))
            == Multiply(2.0, center)
  {
  }

  // ---- The velocity laws ----

  /** The facing after the input of Move: Right wins when both keys are held. */
  function Facing(lr: LRDirection, right: bool, left: bool): (r: LRDirection)
    ensures right ==> r == Right
    ensures !right && left ==> r == Left
    ensures !right && !left ==> r == lr
  {
    if right then Right else if left then Left else lr
  }

  /** The grounded horizontal velocity after Move: a key held against the motion first
      brakes by the attenuation, the key's acceleration is added and the result clamped
      to the run-speed limit; no key decays the velocity. */
  function RunVelocityX(vx: real, right: bool, left: bool): (r: real)
    ensures right || left ==> -LimitRunSpeed <= r <= LimitRunSpeed
    ensures !right && !left ==> r == vx * (1.0 - Attenuation)
  {
    if right || left then
      var braked :=
        if right then (if vx < 0.0 then vx * (1.0 - Attenuation) else vx)
        else (if vx > 0.0 then vx * (1.0 - Attenuation) else vx);
      var acceleration := if right then Acceleration else -Acceleration;
      Clamp(braked + acceleration, -LimitRunSpeed, LimitRunSpeed)
    else
      vx * (1.0 - Attenuation)
  }

  /** Right wins over Left when both are held. */
  lemma {:induction false} RightWins(vx: real)
    ensures RunVelocityX(vx, true, true) == RunVelocityX(vx, true, false)
  {
  }

  /** Left is the mirror image of Right. */
  lemma {:induction false} LeftMirrorsRight(vx: real)
    ensures RunVelocityX(-vx, false, true) == -RunVelocityX(vx, true, false)
  {
    assert (-vx) * (1.0 - Attenuation) == -(vx * (1.0 - Attenuation));
  }

  /** Right held against leftward motion brakes before it accelerates. */
  lemma {:induction false} RightBrakesLeftwardMotion(vx: real)
    requires vx < 0.0
    ensures RunVelocityX(vx, true, false) == Clamp(vx * 0.9 + Acceleration, -LimitRunSpeed, LimitRunSpeed)
  {
  }

  /** From any speed within the limit, Right never slows the player's rightward
      velocity, and raises it strictly until it reaches the limit. */
  lemma {:induction false} RightAccelerates(vx: real)
    requires -LimitRunSpeed <= vx <= LimitRunSpeed
    ensures vx <= RunVelocityX(vx, true, false)
    ensures vx < LimitRunSpeed ==> vx < RunVelocityX(vx, true, false)
  {
  }

  /** With no key held the grounded speed only shrinks, keeping its sign. */
  lemma {:induction false} DecayShrinks(vx: real)
    ensures 0.0 <= vx ==> 0.0 <= RunVelocityX(vx, false, false) <= vx
    ensures vx <= 0.0 ==> vx <= RunVelocityX(vx, false, false) <= 0.0
  {
    ScaledFraction(vx, 1.0 - Attenuation);
  }

  /** The airborne velocity.y after one frame of gravity. */
  function Fall(vy: real): (r: real)
    ensures -LimitFallSpeed <= r
    ensures r <= vy - GravityAcceleration || r == -LimitFallSpeed
    ensures -LimitFallSpeed + GravityAcceleration <= vy ==> r == vy - GravityAcceleration
    ensures vy < -LimitFallSpeed + GravityAcceleration ==> r == -LimitFallSpeed
  {
    Max(vy + -GravityAcceleration, -LimitFallSpeed)
  }

  /** Gravity never raises a fall speed that is already within the limit. */
  lemma {:induction false} FallNeverRises(vy: real)
    requires -LimitFallSpeed <= vy
    ensures Fall(vy) <= vy
  {
  }

  // ---- The turn ----

  /** The yaw table of Update, indexed by the facing. */
  function DestinationRotationY(lr: LRDirection): (r: real)
    ensures lr == Right ==> r == PiF / 2.0
    ensures lr == Left ==> r == PiF * 3.0 / 2.0
  {
    [PiF / 2.0, PiF * 3.0 / 2.0][if lr == Right then 0 else 1]
  }

  /** t^2 (3 - 2 t): the EaseInOut weight of the turn. */
  function Smoothstep(t: real): real
  {
    t * t * (3.0 - 2.0 * t)
  }

  lemma {:induction false} SmoothstepBounds(t: real)
    requires 0.0 <= t <= 1.0
    ensures 0.0 <= Smoothstep(t) <= 1.0
    ensures t == 0.0 ==> Smoothstep(t) == 0.0
    ensures t == 1.0 ==> Smoothstep(t) == 1.0
  {
    var t2, u := t * t, 1.0 - t;
    var u2 := u * u;
    MulNonNegative(t, t);
    MulNonNegative(u, u);
    MulNonNegative(t2, 3.0 - 2.0 * t);
    MulNonNegative(u2, 1.0 + 2.0 * t);
    assert 1.0 - t2 * (3.0 - 2.0 * t) == u2 * (1.0 + 2.0 * t);
  }

  /** The yaw of a turn frame, given the timer after its decrement. */
  function TurnYaw(first: real, destination: real, timer: real): real
  {
    var t := 1.0 - timer / TimeTurn;
    var easedT := Smoothstep(t);
    (1.0 - easedT) * first + easedT * destination
  }

  /** While the timer is in [0, TimeTurn] the yaw lies between the recorded yaw and the
      destination; it is the destination once the timer reaches 0. */
  lemma {:induction false} TurnYawBetween(first: real, destination: real, timer: real)
    requires 0.0 <= timer <= TimeTurn
    ensures Min(first, destination) <= TurnYaw(first, destination, timer) <= Max(first, destination)
    ensures timer == 0.0 ==> TurnYaw(first, destination, timer) == destination
  {
    var t := 1.0 - timer / TimeTurn;
    SmoothstepBounds(t);
    var e := Smoothstep(t);
    assert (1.0 - e) * first + e * destination == first + (destination - first) * e;
    BlendBetween(first, destination, e);
  }

  /** class Player, with the fields the shown revision reads and writes. The world
      transform is reduced to its translation and its yaw. */
  class Player {
    var translation: Vector3
    var rotationY: real
    var velocity: Vector3
    var lrDirection: LRDirection
    var turnFirstRotationY: real
    var turnTimer: real
    var onGround: bool
    var mapChipField: MapChipField.MapChipField?
    /** The frames left in the current turn: the timer is always that many decrements. */
    ghost var turnSteps: nat

    /** The state every frame keeps: standing means no vertical speed, the vertical speed
        lies between the fall limit and the jump speed, and the timer counts whole
        decrements of at most one turn. */
    ghost predicate Valid()
      reads this
    {
      (onGround ==> velocity.y == 0.0)
      && -LimitFallSpeed <= velocity.y <= JumpAcceleration
      && turnSteps <= TurnFrames
      && turnTimer == TurnDecrement * turnSteps as real
    }

    /** Initialize: the default members of Player.h, the given position and a yaw of
        pi / 2. */
    constructor (position: Vector3)
      ensures Valid()
      ensures translation == position && rotationY == PiF / 2.0
      ensures velocity == Zero && lrDirection == Right
      ensures turnFirstRotationY == 0.0 && turnTimer == 0.0 && onGround
      ensures mapChipField == null
    {
      translation := position;
      rotationY := PiF / 2.0;
      velocity := Zero;
      lrDirection := Right;
      turnFirstRotationY := 0.0;
      turnTimer := 0.0;
      turnSteps := 0;
      onGround := true;
      mapChipField := null;
    }

    method SetMapChipField(field: MapChipField.MapChipField?)
      modifies this`mapChipField
      ensures mapChipField == field
    {
      mapChipField := field;
    }

    /** Move: only on the ground; velocity.x follows RunVelocityX, and a new facing
        records the current yaw and restarts the turn timer. */
    method Move(right: bool, left: bool)
      requires Valid()
      modifies this
      ensures Valid()
      ensures !old(onGround) ==> velocity == old(velocity) && lrDirection == old(lrDirection)
                                 && turnFirstRotationY == old(turnFirstRotationY) && turnTimer == old(turnTimer)
      ensures old(onGround) ==> velocity == old(velocity).(x := RunVelocityX(old(velocity.x), right, left))
      ensures old(onGround) ==> lrDirection == Facing(old(lrDirection), right, left)
      ensures old(onGround) && lrDirection != old(lrDirection) ==>
                turnFirstRotationY == old(rotationY) && turnTimer == TimeTurn
      ensures lrDirection == old(lrDirection) ==>
                turnFirstRotationY == old(turnFirstRotationY) && turnTimer == old(turnTimer)
      ensures translation == old(translation) && rotationY == old(rotationY)
      ensures onGround == old(onGround) && mapChipField == old(mapChipField)
    {
      if onGround {
        if right || left {
          var acceleration := Zero;
          if right {
            if velocity.x < 0.0 {
              velocity := velocity.(x := velocity.x * (1.0 - Attenuation));
            }
            acceleration := acceleration.(x := acceleration.x + Acceleration);
            if lrDirection != Right {
              lrDirection := Right;
              turnFirstRotationY := rotationY;
              turnTimer := TimeTurn;
              turnSteps := TurnFrames;
            }
          } else if left {
            if velocity.x > 0.0 {
              velocity := velocity.(x := velocity.x * (1.0 - Attenuation));
            }
            acceleration := acceleration.(x := acceleration.x - Acceleration);
            if lrDirection != Left {
              lrDirection := Left;
              turnFirstRotationY := rotationY;
              turnTimer := TimeTurn;
              turnSteps := TurnFrames;
            }
          }
          velocity := Add(velocity, acceleration);
          velocity := velocity.(x := Clamp(velocity.x, -LimitRunSpeed, LimitRunSpeed));
        } else {
          velocity := velocity.(x := velocity.x * (1.0 - Attenuation));
        }
      }
    }

    /** The map tile under a point, as CheckMapCollisionUp looks it up. */
    function TileAt(p: Vector3): MapChipField.MapChipType
      reads this, mapChipField
      requires mapChipField != null && mapChipField.Valid()
      requires MapChipField.IndexablePosition(p)
    {
      var indexSet := MapChipField.GetMapChipIndexSetByPosition(p);
      mapChipField.GetMapChipTypeByIndex(indexSet.xIndex, indexSet.yIndex)
    }

    /** CheckMapCollisionUp: the four corners after the move are computed first; a move
        that is not upward stops there; otherwise the local hit flag records whether
        the tile under either top corner is a block. The pass never writes info, so
        info is taken by value and the flag is returned. The map lookups are reached
        only for an upward move, which is when the source needs a map and both top
        corners at a position the index conversion accepts. */
    method CheckMapCollisionUp(info: CollisionMapInfo) returns (hit: bool)
      requires info.moveAmount.y > 0.0 ==>
                 mapChipField != null && mapChipField.Valid()
                 && MapChipField.IndexablePosition(CornerPosition(Add(translation, info.moveAmount), LeftTop))
                 && MapChipField.IndexablePosition(CornerPosition(Add(translation, info.moveAmount), RightTop))
      ensures info.moveAmount.y <= 0.0 ==> !hit
      ensures info.moveAmount.y > 0.0 ==>
                (hit <==> TileAt(CornerPosition(Add(translation, info.moveAmount), LeftTop)) == MapChipField.Block
                          || TileAt(CornerPosition(Add(translation, info.moveAmount), RightTop)) == MapChipField.Block)
    {
      var positionsNew := new Vector3[NumCorner];
      for i := 0 to NumCorner
        invariant forall k | 0 <= k < i :: positionsNew[k] == CornerPosition(Add(translation, info.moveAmount), CornerOf(k))
      {
        positionsNew[i] := CornerPosition(Add(translation, info.moveAmount), CornerOf(i));
      }
      if info.moveAmount.y <= 0.0 {
        return false;
      }
      hit := false;
      var indexSet := MapChipField.GetMapChipIndexSetByPosition(positionsNew[3]);
      var mapChipType := mapChipField.GetMapChipTypeByIndex(indexSet.xIndex, indexSet.yIndex);
      if mapChipType == MapChipField.Block {
        hit := true;
      }
      indexSet := MapChipField.GetMapChipIndexSetByPosition(positionsNew[2]);
      mapChipType := mapChipField.GetMapChipTypeByIndex(indexSet.xIndex, indexSet.yIndex);
      if mapChipType == MapChipField.Block {
        hit := true;
      }
    }

    /** CheckMapCollision: of its four passes only the upward one has a body. */
    method CheckMapCollision(info: CollisionMapInfo) returns (hitCeiling: bool)
      requires info.moveAmount.y > 0.0 ==>
                 mapChipField != null && mapChipField.Valid()
                 && MapChipField.IndexablePosition(CornerPosition(Add(translation, info.moveAmount), LeftTop))
                 && MapChipField.IndexablePosition(CornerPosition(Add(translation, info.moveAmount), RightTop))
      ensures info.moveAmount.y <= 0.0 ==> !hitCeiling
      ensures info.moveAmount.y > 0.0 ==>
                (hitCeiling <==> TileAt(CornerPosition(Add(translation, info.moveAmount), LeftTop)) == MapChipField.Block
                                 || TileAt(CornerPosition(Add(translation, info.moveAmount), RightTop)) == MapChipField.Block)
    {
      hitCeiling := CheckMapCollisionUp(info);
    }

    /** The turn-control block of Update: a running timer loses one decrement, and the
        yaw moves from the recorded yaw towards the facing's destination. */
    method TurnControl()
      requires Valid()
      modifies this`turnTimer, this`turnSteps, this`rotationY
      ensures Valid()
      ensures old(turnTimer) > 0.0 ==>
                turnTimer == old(turnTimer) - TurnDecrement
                && rotationY == TurnYaw(turnFirstRotationY, DestinationRotationY(lrDirection), turnTimer)
      ensures old(turnTimer) > 0.0 ==>
                Min(turnFirstRotationY, DestinationRotationY(lrDirection)) <= rotationY
                <= Max(turnFirstRotationY, DestinationRotationY(lrDirection))
      ensures old(turnTimer) > 0.0 && turnTimer == 0.0 ==> rotationY == DestinationRotationY(lrDirection)
      ensures old(turnTimer) <= 0.0 ==> turnTimer == old(turnTimer) && rotationY == old(rotationY)
    {
      if turnTimer > 0.0 {
        turnTimer := turnTimer - TurnDecrement;
        turnSteps := turnSteps - 1;
        var destinationRotationYTable := [PiF / 2.0, PiF * 3.0 / 2.0];
        var destinationRotationY := destinationRotationYTable[if lrDirection == Right then 0 else 1];
        var t := 1.0 - (turnTimer / TimeTurn);
        var easedT := Smoothstep(t);
        rotationY := (1.0 - easedT) * turnFirstRotationY + easedT * destinationRotationY;
        assert destinationRotationY == DestinationRotationY(lrDirection);
        assert turnTimer == TurnDecrement * turnSteps as real;
        assert rotationY == TurnYaw(turnFirstRotationY, destinationRotationY, turnTimer);
        TurnFramesStayBetween(turnFirstRotationY, destinationRotationY, turnSteps);
      }
    }

    /** Update for one frame with the keys held (the Draw-side matrix upload is not
        modelled). */
    method Update(right: bool, left: bool, up: bool)
      requires Valid()
      modifies this
      ensures Valid()
      ensures mapChipField == old(mapChipField)
      // Grounded: Move, then the jump.
      ensures old(onGround) ==>
                velocity == Vector3(RunVelocityX(old(velocity.x), right, left),
                                    if up then JumpAcceleration else 0.0, old(velocity.z))
      ensures old(onGround) ==> onGround == !up
      ensures old(onGround) ==> translation == Add(old(translation), velocity)
      // Airborne: gravity with the fall limit, then the landing test at the floor.
      ensures !old(onGround) ==>
                var vy := Fall(old(velocity.y));
                var landing := vy < 0.0 && old(translation.y) <= Floor;
                onGround == landing
                && (landing ==> velocity == Vector3(old(velocity.x) * (1.0 - Attenuation), 0.0, old(velocity.z))
                                && translation == Vector3(old(translation.x) + velocity.x, Floor,
                                                          old(translation.z) + velocity.z))
                && (!landing ==> velocity == old(velocity).(y := vy)
                                 && translation == Add(old(translation), velocity))
      // The facing: Move's on the ground, unchanged in the air.
      ensures lrDirection == if old(onGround) then Facing(old(lrDirection), right, left) else old(lrDirection)
      // The turn: a running timer loses one decrement and the yaw follows TurnYaw.
      ensures var startTimer := if old(onGround) && lrDirection != old(lrDirection) then TimeTurn else old(turnTimer);
              var first := if old(onGround) && lrDirection != old(lrDirection) then old(rotationY) else old(turnFirstRotationY);
              turnFirstRotationY == first
              && (startTimer > 0.0 ==> turnTimer == startTimer - TurnDecrement
                                       && rotationY == TurnYaw(first, DestinationRotationY(lrDirection), turnTimer))
              && (startTimer <= 0.0 ==> turnTimer == startTimer && rotationY == old(rotationY))
    {
      if onGround {
        Move(right, left);
        var collisionMapInfo := CollisionMapInfo(false, false, false, velocity);
        var _ := CheckMapCollision(collisionMapInfo);
        if up {
          velocity := velocity.(y := velocity.y + JumpAcceleration);
        }
      } else {
        velocity := velocity.(y := velocity.y + -GravityAcceleration);
        velocity := velocity.(y := Max(velocity.y, -LimitFallSpeed));
      }

      var landing := false;
      if velocity.y < 0.0 {
        if translation.y <= Floor {
          landing := true;
        }
      }
      if onGround {
        if velocity.y > 0.0 {
          onGround := false;
        }
      } else {
        if landing {
          translation := translation.(y := Floor);
          velocity := velocity.(x := velocity.x * (1.0 - Attenuation));
          velocity := velocity.(y := 0.0);
          onGround := true;
        }
      }

      TurnControl();

      translation := Add(translation, velocity);
    }
  }

  /** A running turn keeps its timer in [0, TimeTurn], so every turn frame's yaw lies
      between the recorded yaw and the destination, and the last frame lands on it. */
  lemma {:induction false} TurnFramesStayBetween(first: real, destination: real, steps: nat)
    requires steps < TurnFrames
    ensures var timer := TurnDecrement * steps as real;
            Min(first, destination) <= TurnYaw(first, destination, timer) <= Max(first, destination)
    ensures steps == 0 ==> TurnYaw(first, destination, TurnDecrement * steps as real) == destination
  {
    TurnYawBetween(first, destination, TurnDecrement * steps as real);
  }
}
