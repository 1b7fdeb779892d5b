/** CameraController.cpp / CameraController.h: the camera that follows the player. Each
    frame it aims ahead of the player along its velocity, moves halfway there, keeps the
    player within a margin window and finally keeps itself inside the movable area. */
module CameraController {
  import opened Numeric
  import opened VectorMath
  import Player

  /** CameraController::Rect. */
  datatype Rect = Rect(left: real, right: real, bottom: real, top: real)

  /** The default member initialisers of Rect. */
  const DefaultRect: Rect := Rect(0.0, 1.0, 0.0, 1.0)

  /** A rectangle whose bounds are in order, so that clamping into it is defined. */
  predicate WellFormed(r: Rect)
  {
    r.left <= r.right && r.bottom <= r.top
  }

  const TargetOffset: Vector3 := Vector3(0.0, 0.0, -17.0)
  const InterpolationRate: real := 0.5
  const DefaultMovableArea: Rect := Rect(0.0, 100.0, 0.0, 100.0)
  const VelocityBias: real := 10.0
  /** margin_: how far the camera may sit from the player in each direction. */
  const Margin: Rect := Rect(-1.0, 4.0, 0.0, 5.0)

  /** Every rectangle the controller starts with or clamps against is well formed. */
  lemma {:induction false} ConstantRectsWellFormed()
    ensures WellFormed(DefaultRect) && WellFormed(DefaultMovableArea) && WellFormed(Margin)
  {
  }

  /** CameraController::Lerp, with t weighting the FIRST argument. */
  function Lerp(v1: Vector3, v2: Vector3, t: real): (r: Vector3)
  {
    Vector3(t * v1.x + (1.0 - t) * v2.x,
            t * v1.y + (1.0 - t) * v2.y,
            t * v1.z + (1.0 - t) * v2.z)
  }

  /** The reverse of the usual convention: t = 1 gives v1 and t = 0 gives v2. */
  lemma {:induction false} LerpEndpoints(v1: Vector3, v2: Vector3)
    ensures Lerp(v1, v2, 1.0) == v1
    ensures Lerp(v1, v2, 0.0) == v2
  {
  }

  /** Lerp is the usual blend with the arguments swapped: it walks from v2 towards v1. */
  lemma {:induction false} LerpIsReversedBlend(v1: Vector3, v2: Vector3, t: real)
    ensures Lerp(v1, v2, t) == Add(v2, Multiply(t, Subtract(v1, v2)))
  {
    var r := Lerp(v1, v2, t);
    assert r.x == v2.x + (v1.x - v2.x) * t;
    assert r.y == v2.y + (v1.y - v2.y) * t;
    assert r.z == v2.z + (v1.z - v2.z) * t;
  }

  /** At the rate 0.5 the two arguments play the same part: the result is the midpoint. */
  lemma {:induction false} LerpHalfSymmetric(v1: Vector3, v2: Vector3)
    ensures Lerp(v1, v2, InterpolationRate) == Lerp(v2, v1, InterpolationRate)
    ensures Lerp(v1, v2, InterpolationRate) == Multiply(0.5, Add(v1, v2))
  {
  }

  /** For t in [0, 1] every component of the result lies between those of the two ends. */
  lemma {:induction false} LerpBetween(v1: Vector3, v2: Vector3, t: real)
    requires 0.0 <= t <= 1.0
    ensures Min(v1.x, v2.x) <= Lerp(v1, v2, t).x <= Max(v1.x, v2.x)
    ensures Min(v1.y, v2.y) <= Lerp(v1, v2, t).y <= Max(v1.y, v2.y)
    ensures Min(v1.z, v2.z) <= Lerp(v1, v2, t).z <= Max(v1.z, v2.z)
  {
    LerpIsReversedBlend(v1, v2, t);
    BlendBetween(v2.x, v1.x, t);
    BlendBetween(v2.y, v1.y, t);
    BlendBetween(v2.z, v1.z, t);
  }

  /** Where the camera aims: the player plus the offset plus kVelocityBias times its
      velocity. */
  function TargetPosition(playerTranslation: Vector3, playerVelocity: Vector3): (r: Vector3)
    ensures Subtract(r, Add(playerTranslation, TargetOffset)) == Multiply(VelocityBias, playerVelocity)
  {
    Add(Add(playerTranslation, TargetOffset), Multiply(VelocityBias, playerVelocity))
  }

  /** The two clamps that follow the lerp: first into the margin window round the
      player, then into the movable area. */
  function ClampIntoWindow(l: Vector3, playerTranslation: Vector3, area: Rect): (r: Vector3)
    requires WellFormed(area)
    ensures area.left <= r.x <= area.right && area.bottom <= r.y <= area.top
    ensures r.z == l.z
    ensures area.left <= l.x <= area.right && playerTranslation.x + Margin.left <= l.x <= playerTranslation.x + Margin.right
            ==> r.x == l.x
    ensures area.bottom <= l.y <= area.top && playerTranslation.y + Margin.bottom <= l.y <= playerTranslation.y + Margin.top
            ==> r.y == l.y
  {
    var mx := Clamp(l.x, playerTranslation.x + Margin.left, playerTranslation.x + Margin.right);
    var my := Clamp(l.y, playerTranslation.y + Margin.bottom, playerTranslation.y + Margin.top);
    Vector3(Clamp(mx, area.left, area.right), Clamp(my, area.bottom, area.top), l.z)
  }

  /** The camera position after one Update, from the previous camera position, the player
      and the movable area: the lerp towards the aim point, then the two clamps. Only the
      lerp sets z. */
  function FollowPosition(camera: Vector3, playerTranslation: Vector3, playerVelocity: Vector3, area: Rect): (r: Vector3)
    requires WellFormed(area)
    ensures area.left <= r.x <= area.right && area.bottom <= r.y <= area.top
    ensures r.z == Lerp(camera, TargetPosition(playerTranslation, playerVelocity), InterpolationRate).z
  {
    ClampIntoWindow(Lerp(camera, TargetPosition(playerTranslation, playerVelocity), InterpolationRate), playerTranslation, area)
  }

  /** Where the movable area contains the whole margin window round the player, the
      area clamp changes nothing: the camera ends within the margin window. */
  lemma {:induction false} MarginHoldsInsideArea(l: Vector3, playerTranslation: Vector3, area: Rect)
    requires WellFormed(area)
    requires area.left <= playerTranslation.x + Margin.left && playerTranslation.x + Margin.right <= area.right
    requires area.bottom <= playerTranslation.y + Margin.bottom && playerTranslation.y + Margin.top <= area.top
    ensures var r := ClampIntoWindow(l, playerTranslation, area);
            && playerTranslation.x + Margin.left <= r.x <= playerTranslation.x + Margin.right
            && playerTranslation.y + Margin.bottom <= r.y <= playerTranslation.y + Margin.top
  {
  }

  /** The aim point of a resting player is the player plus the offset. */
  lemma {:induction false} RestingTarget(playerTranslation: Vector3)
    ensures TargetPosition(playerTranslation, Zero) == Add(playerTranslation, TargetOffset)
  {
    assert Multiply(VelocityBias, Zero) == Zero;
  }

  /** A camera that already sits at the aim point of a resting player, inside the area,
      does not move. */
  lemma {:induction false} RestingTargetIsFixed(camera: Vector3, playerTranslation: Vector3, area: Rect)
    requires WellFormed(area)
    requires camera == Add(playerTranslation, TargetOffset)
    requires area.left <= camera.x <= area.right && area.bottom <= camera.y <= area.top
    ensures FollowPosition(camera, playerTranslation, Zero, area) == camera
  {
    RestingLerp(camera, playerTranslation);
    WindowKeepsPlayerColumn(camera, playerTranslation, area);
  }

  /** The lerp towards the aim point of a resting player, from that aim point, stays put. */
  lemma {:induction false} RestingLerp(camera: Vector3, playerTranslation: Vector3)
    requires camera == Add(playerTranslation, TargetOffset)
    ensures Lerp(camera, TargetPosition(playerTranslation, Zero), InterpolationRate) == camera
  {
    RestingTarget(playerTranslation);
    LerpOfEqualEnds(camera, InterpolationRate);
  }

  /** A point straight in front of the player, inside the area, passes both clamps. */
  lemma {:induction false} WindowKeepsPlayerColumn(l: Vector3, playerTranslation: Vector3, area: Rect)
    requires WellFormed(area)
    requires l.x == playerTranslation.x && l.y == playerTranslation.y
    requires area.left <= l.x <= area.right && area.bottom <= l.y <= area.top
    ensures ClampIntoWindow(l, playerTranslation, area) == l
  {
  }

  /** Blending a point with itself gives the point. */
  lemma {:induction false} LerpOfEqualEnds(v: Vector3, t: real)
    ensures Lerp(v, v, t) == v
  {
    assert t * v.x + (1.0 - t) * v.x == v.x;
    assert t * v.y + (1.0 - t) * v.y == v.y;
    assert t * v.z + (1.0 - t) * v.z == v.z;
  }

  /** KamataEngine::Camera, reduced to its translation: the engine camera that
      targetCamera_ points to and Update moves. */
  class Camera {
    var translation: Vector3

    constructor (initialTranslation: Vector3)
      ensures translation == initialTranslation
    {
      translation := initialTranslation;
    }
  }

  class CameraController {
    /** camera_.translation_: the controller's own camera, which only Reset writes. */
    var camera: Vector3
    var target: Player.Player?
    var targetCamera: Camera?
    var targetPosition: Vector3
    var targetVelocity: Vector3
    var movableArea: Rect

    /** The default members. The engine's camera initialisation gives the controller's
        own camera a translation, taken here as cameraTranslation. Three members have no
        initialiser: target_ is taken as null and the two vectors as zero; Update and
        Reset require a target, and Update overwrites both vectors before reading them. */
    constructor (cameraTranslation: Vector3)
      ensures camera == cameraTranslation && target == null && targetCamera == null
      ensures targetPosition == Zero && targetVelocity == Zero
      ensures movableArea == DefaultMovableArea
    {
      camera := cameraTranslation;
      target := null;
      targetCamera := null;
      targetPosition := Zero;
      targetVelocity := Zero;
      movableArea := Rect(0.0, 100.0, 0.0, 100.0);
    }

    method SetTarget(player: Player.Player?)
      modifies this`target
      ensures target == player
    {
      target := player;
    }

    method SetTargetCamera(c: Camera?)
      modifies this`targetCamera
      ensures targetCamera == c
    {
      targetCamera := c;
    }

    method SetMovableArea(area: Rect)
      modifies this`movableArea
      ensures movableArea == area
    {
      movableArea := area;
    }

    /** Update for one frame. The player and the camera being steered must be set, and
        the area must be well formed for std::clamp to be defined. */
    method Update()
      requires target != null && targetCamera != null && WellFormed(movableArea)
      modifies this`targetVelocity, this`targetPosition, targetCamera
      ensures targetVelocity == target.velocity
      ensures targetPosition == TargetPosition(target.translation, target.velocity)
      ensures targetCamera.translation
                == FollowPosition(old(targetCamera.translation), target.translation, target.velocity, movableArea)
      ensures movableArea.left <= targetCamera.translation.x <= movableArea.right
      ensures movableArea.bottom <= targetCamera.translation.y <= movableArea.top
    {
      targetVelocity := target.velocity;

      var targetTranslation := target.translation;

      targetPosition := Add(Add(targetTranslation, TargetOffset), Multiply(VelocityBias, targetVelocity));

      targetCamera.translation := Lerp(targetCamera.translation, targetPosition, InterpolationRate);

      targetCamera.translation := targetCamera.translation.(x := Clamp(targetCamera.translation.x,
        target.translation.x + Margin.left, target.translation.x + Margin.right));
      targetCamera.translation := targetCamera.translation.(y := Clamp(targetCamera.translation.y,
        target.translation.y + Margin.bottom, target.translation.y + Margin.top));

      targetCamera.translation := targetCamera.translation.(x := Clamp(targetCamera.translation.x,
        movableArea.left, movableArea.right));
      targetCamera.translation := targetCamera.translation.(y := Clamp(targetCamera.translation.y,
        movableArea.bottom, movableArea.top));
    }

    /** Reset: the controller's own camera is put at the player plus the offset; the
        camera being steered is not touched. */
    method Reset()
      requires target != null
      modifies this`camera
      ensures camera == Add(target.translation, TargetOffset)
    {
      var targetTranslation := target.translation;
      camera := Add(targetTranslation, TargetOffset);
    }
  }
}
