/** Goal.cpp / Goal.h / AABB.h: the goal flag and its bounding box. The world matrix is
    whatever the engine's WorldTransformUpdate produced from the transform, so it is
    given to the constructor; the box is read off its translation row. */
module Goal {
  import opened Numeric
  import opened VectorMath
  import Matrix

  /** struct AABB. */
  datatype AABB = AABB(min: Vector3, max: Vector3)

  const Width: real := 1.0
  const Height: real := 2.0
  const Size: Vector3 := Vector3(1.0, 2.0, 1.0)

  /** The box's extent along each axis: max minus min. */
  function Extents(b: AABB): Vector3
  {
    Subtract(b.max, b.min)
  }

  /** The point halfway between min and max. */
  function Centre(b: AABB): Vector3
  {
    Multiply(0.5, Add(b.min, b.max))
  }

  class Goal {
    var translation: Vector3
    var rotationY: real
    var scale: Vector3
    var size: Vector3
    /** worldTransform_.matWorld_. */
    var matWorld: Matrix.Matrix4x4

    /** Initialize: the goal is placed at pos, turned by pi/2 about y, with the size
        (1, 2, 1). matWorld is the matrix the engine computes for that transform. */
    constructor (pos: Vector3, matWorld: Matrix.Matrix4x4)
      ensures translation == pos && rotationY == PiF / 2.0 && size == Size
      ensures scale == Vector3(1.0, 1.0, 1.0) && this.matWorld == matWorld
    {
      translation := pos;
      rotationY := PiF / 2.0;
      scale := Vector3(1.0, 1.0, 1.0);
      this.matWorld := matWorld;
      size := Vector3(1.0, 2.0, 1.0);
    }

    /** GetWorldPosition: the translation row of the world matrix, m[3][0..2]. */
    function GetWorldPosition(): Vector3
      reads this
    {
      Vector3(matWorld[3][0], matWorld[3][1], matWorld[3][2])
    }

    /** GetAABB: the box of kWidth_ x kHeight_ x kWidth_ centred on the world position. */
    function GetAABB(): (r: AABB)
      reads this
      ensures r.min.x <= r.max.x && r.min.y <= r.max.y && r.min.z <= r.max.z
      ensures Extents(r) == Vector3(Width, Height, Width)
      ensures Centre(r) == GetWorldPosition()
    {
      var worldPos := GetWorldPosition();
      AABB(Vector3(worldPos.x - Width / 2.0, worldPos.y - Height / 2.0, worldPos.z - Width / 2.0),
           Vector3(worldPos.x + Width / 2.0, worldPos.y + Height / 2.0, worldPos.z + Width / 2.0))
    }

    /** SetScale: only the scale changes. */
    method SetScale(s: Vector3)
      modifies this`scale
      ensures scale == s
    {
      scale := s;
    }
  }

  /** When the engine built the world matrix with MakeAffineMatrix from the goal's own
      translation, the world position is that translation, whatever the scale and the
      rotation, and the box is centred on it. */
  lemma {:induction false} WorldPositionIsTranslation(g: Goal, s: Vector3, x: Matrix.Trig, y: Matrix.Trig, z: Matrix.Trig)
    requires g.matWorld == Matrix.MakeAffineMatrix(s, x, y, z, g.translation)
    ensures g.GetWorldPosition() == g.translation
    ensures Centre(g.GetAABB()) == g.translation
  {
    Matrix.AffineLayout(s, x, y, z, g.translation);
    var row := g.matWorld[3];
    assert row[0] == g.translation.x && row[1] == g.translation.y && row[2] == g.translation.z;
  }

  /** GetAABB's box is the only box with its extents centred on the world position. */
  lemma {:induction false} BoxIsDeterminedByCentre(g: Goal, b: AABB)
    requires Extents(b) == Vector3(Width, Height, Width) && Centre(b) == g.GetWorldPosition()
    ensures b == g.GetAABB()
  {
    var p := g.GetWorldPosition();
    assert b.max.x - b.min.x == Width && b.max.x + b.min.x == 2.0 * p.x;
    assert b.max.y - b.min.y == Height && b.max.y + b.min.y == 2.0 * p.y;
    assert b.max.z - b.min.z == Width && b.max.z + b.min.z == 2.0 * p.z;
  }
}
