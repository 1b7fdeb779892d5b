/** VectorMath.h: componentwise arithmetic on Vector3, over exact reals. */
module VectorMath {

  /** KamataEngine::Vector3. */
  datatype Vector3 = Vector3(x: real, y: real, z: real)

  const Zero: Vector3 := Vector3(0.0, 0.0, 0.0)

  /** Add(v1, v2). */
  function Add(v1: Vector3, v2: Vector3): (r: Vector3)
    ensures Subtract(r, v2) == v1
  {
    Vector3(v1.x + v2.x, v1.y + v2.y, v1.z + v2.z)
  }

  /** Subtract(v1, v2). */
  function Subtract(v1: Vector3, v2: Vector3): (r: Vector3)
  {
    Vector3(v1.x - v2.x, v1.y - v2.y, v1.z - v2.z)
  }

  /** Multiply(f, vector): every component scaled by f. */
  function Multiply(f: real, v: Vector3): (r: Vector3)
  {
    Vector3(v.x * f, v.y * f, v.z * f)
  }

  /** Dot(v1, v2). */
  function Dot(v1: Vector3, v2: Vector3): (r: real)
  {
    v1.x * v2.x + v1.y * v2.y + v1.z * v2.z
  }

  /** Length(v) is std::sqrt of Dot(v, v); square roots are not modelled, so a length is
      characterised by this relation instead of being computed. */
  ghost predicate IsLength(v: Vector3, len: real)
  {
    0.0 <= len && len * len == Dot(v, v)
  }

  lemma SubtractUndoesAdd(a: Vector3, b: Vector3)
    ensures Subtract(Add(a, b), b) == a
    ensures Add(Subtract(a, b), b) == a
  {
  }

  lemma AddCommutative(a: Vector3, b: Vector3)
    ensures Add(a, b) == Add(b, a)
  {
  }

  lemma AddAssociative(a: Vector3, b: Vector3, c: Vector3)
    ensures Add(Add(a, b), c) == Add(a, Add(b, c))
  {
  }

  lemma MultiplyUnitAndZero(v: Vector3)
    ensures Multiply(1.0, v) == v
    ensures Multiply(0.0, v) == Zero
  {
  }

  lemma DotSymmetric(a: Vector3, b: Vector3)
    ensures Dot(a, b) == Dot(b, a)
  {
  }

  lemma {:induction false} DotSelfNonNegative(v: Vector3)
    ensures Dot(v, v) >= 0.0
  {
  }

  lemma {:induction false} DotScales(f: real, a: Vector3, b: Vector3)
    ensures Dot(Multiply(f, a), b) == f * Dot(a, b)
  {
    calc {
      Dot(Multiply(f, a), b);
      (a.x * f) * b.x + (a.y * f) * b.y + (a.z * f) * b.z;
      f * (a.x * b.x) + f * (a.y * b.y) + f * (a.z * b.z);
      f * Dot(a, b);
    }
  }

  lemma {:induction false} DotDistributesOverAdd(a: Vector3, b: Vector3, c: Vector3)
    ensures Dot(Add(a, b), c) == Dot(a, c) + Dot(b, c)
  {
    calc {
      Dot(Add(a, b), c);
      (a.x + b.x) * c.x + (a.y + b.y) * c.y + (a.z + b.z) * c.z;
      (a.x * c.x + b.x * c.x) + (a.y * c.y + b.y * c.y) + (a.z * c.z + b.z * c.z);
      Dot(a, c) + Dot(b, c);
    }
  }

  /** Squaring is strictly increasing on the non-negative reals. */
  lemma {:induction false} SquareStrictlyIncreasing(a: real, b: real)
    requires 0.0 <= a < b
    ensures a * a < b * b
  {
    var p, q, r := a * a, a * b, b * b;
    assert p <= q;
    assert q < r;
  }

  /** Every vector has at most one length. */
  lemma {:induction false} LengthUnique(v: Vector3, l1: real, l2: real)
    requires IsLength(v, l1) && IsLength(v, l2)
    ensures l1 == l2
  {
    if l1 < l2 {
      SquareStrictlyIncreasing(l1, l2);
    } else if l2 < l1 {
      SquareStrictlyIncreasing(l2, l1);
    }
  }

  /** (a * b)^2 = a^2 * b^2, and |f|^2 = f^2. */
  lemma {:induction false} SquareOfProduct(a: real, b: real)
    ensures (a * b) * (a * b) == (a * a) * (b * b)
  {
  }

  lemma {:induction false} SquareOfAbs(f: real)
    ensures (if f < 0.0 then -f else f) * (if f < 0.0 then -f else f) == f * f
  {
    if f < 0.0 {
      assert (-f) * (-f) == f * f;
    }
  }

  /** The squared length of Multiply(f, v) is f^2 times that of v. */
  lemma {:induction false} DotOfScaled(f: real, v: Vector3)
    ensures Dot(Multiply(f, v), Multiply(f, v)) == (f * f) * Dot(v, v)
  {
    var w := Multiply(f, v);
    DotScales(f, v, w);
    DotSymmetric(v, w);
    DotScales(f, v, v);
    var d := Dot(v, v);
    assert Dot(w, w) == f * (f * d);
    assert f * (f * d) == (f * f) * d;
  }

  /** Scaling a vector by f scales its length by |f|. */
  lemma {:induction false} LengthScales(f: real, v: Vector3, len: real)
    requires IsLength(v, len)
    ensures IsLength(Multiply(f, v), (if f < 0.0 then -f else f) * len)
  {
    var af := if f < 0.0 then -f else f;
    assert 0.0 <= af * len;
    DotOfScaled(f, v);
    SquareOfProduct(af, len);
    SquareOfAbs(f);
    var ff, ll := f * f, len * len;
    assert (af * len) * (af * len) == ff * ll;
    assert Dot(Multiply(f, v), Multiply(f, v)) == ff * ll;
  }
}
