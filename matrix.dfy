/** Matrix.h: 4x4 matrices in the row-vector convention (translation in row 3),
    their product, and the translate/scale/rotate/affine constructors.
    Rotation entries are cosf/sinf values, which the model takes as given numbers. */
module Matrix {
  import opened VectorMath

  predicate Is4x4(m: seq<seq<real>>)
  {
    |m| == 4 && forall i | 0 <= i < 4 :: |m[i]| == 4
  }

  /** KamataEngine::Matrix4x4: m[row][column]. */
  type Matrix4x4 = m: seq<seq<real>> | Is4x4(m)
    witness [[0.0, 0.0, 0.0, 0.0], [0.0, 0.0, 0.0, 0.0], [0.0, 0.0, 0.0, 0.0], [0.0, 0.0, 0.0, 0.0]]

  /** A cosine and a sine, standing for cosf(angle) and sinf(angle). */
  datatype Trig = Trig(cos: real, sin: real)

  /** Builds a matrix from its entry function. */
  function Build(f: (nat, nat) -> real): (r: Matrix4x4)
    ensures forall i, j | 0 <= i < 4 && 0 <= j < 4 :: r[i][j] == f(i, j)
  {
    seq(4, i requires 0 <= i < 4 => seq(4, j requires 0 <= j < 4 => f(i, j)))
  }

  /** Two matrices with the same 16 entries are equal. */
  lemma {:induction false} Extensionality(a: Matrix4x4, b: Matrix4x4)
    requires forall i, j | 0 <= i < 4 && 0 <= j < 4 :: a[i][j] == b[i][j]
    ensures a == b
  {
    forall i | 0 <= i < 4
      ensures a[i] == b[i]
    {
      assert forall j | 0 <= j < 4 :: a[i][j] == b[i][j];
    }
  }

  /** MakeIdentity4x4 (its nested loop only fills the local result). */
  function MakeIdentity4x4(): (r: Matrix4x4)
    ensures forall i | 0 <= i < 4 :: r[i][i] == 1.0
    ensures forall i, j | 0 <= i < 4 && 0 <= j < 4 && i != j :: r[i][j] == 0.0
  {
    Build((i: nat, j: nat) => if i == j then 1.0 else 0.0)
  }

  /** Entry [i][j] of the product m1 * m2: row i of m1 against column j of m2. */
  function RowColumn(m1: Matrix4x4, m2: Matrix4x4, i: nat, j: nat): real
    requires i < 4 && j < 4
  {
    m1[i][0] * m2[0][j] + m1[i][1] * m2[1][j] + m1[i][2] * m2[2][j] + m1[i][3] * m2[3][j]
  }

  /** Multiply(matrix1, matrix2). */
  function Multiply(m1: Matrix4x4, m2: Matrix4x4): (r: Matrix4x4)
    ensures forall i, j | 0 <= i < 4 && 0 <= j < 4 :: r[i][j] == RowColumn(m1, m2, i, j)
  {
    Build((i: nat, j: nat) => if i < 4 && j < 4 then RowColumn(m1, m2, i, j) else 0.0)
  }

  /** MakeTranslateMatrix(translate). */
  function MakeTranslateMatrix(t: Vector3): (r: Matrix4x4)
  {
    [[1.0, 0.0, 0.0, 0.0],
     [0.0, 1.0, 0.0, 0.0],
     [0.0, 0.0, 1.0, 0.0],
     [t.x, t.y, t.z, 1.0]]
  }

  /** MakeScaleMatrix(scale). */
  function MakeScaleMatrix(s: Vector3): (r: Matrix4x4)
  {
    [[s.x, 0.0, 0.0, 0.0],
     [0.0, s.y, 0.0, 0.0],
     [0.0, 0.0, s.z, 0.0],
     [0.0, 0.0, 0.0, 1.0]]
  }

  /** MakeRotateXMatrix(rotateX), with cosf/sinf of the angle given. */
  function MakeRotateXMatrix(a: Trig): (r: Matrix4x4)
  {
    [[1.0, 0.0, 0.0, 0.0],
     [0.0, a.cos, a.sin, 0.0],
     [0.0, -a.sin, a.cos, 0.0],
     [0.0, 0.0, 0.0, 1.0]]
  }

  /** MakeRotateYMatrix(rotateY). */
  function MakeRotateYMatrix(a: Trig): (r: Matrix4x4)
  {
    [[a.cos, 0.0, -a.sin, 0.0],
     [0.0, 1.0, 0.0, 0.0],
     [a.sin, 0.0, a.cos, 0.0],
     [0.0, 0.0, 0.0, 1.0]]
  }

  /** MakeRotateZMatrix(rotateZ). */
  function MakeRotateZMatrix(a: Trig): (r: Matrix4x4)
  {
    [[a.cos, a.sin, 0.0, 0.0],
     [-a.sin, a.cos, 0.0, 0.0],
     [0.0, 0.0, 1.0, 0.0],
     [0.0, 0.0, 0.0, 1.0]]
  }

  /** MakeRotateMatrix(rotate) = Rx * (Ry * Rz). */
  function MakeRotateMatrix(x: Trig, y: Trig, z: Trig): (r: Matrix4x4)
    ensures IsLinear(r)
  {
    RotationsAreLinear(x, y, z);
    Multiply(MakeRotateXMatrix(x), Multiply(MakeRotateYMatrix(y), MakeRotateZMatrix(z)))
  }

  /** MakeAffineMatrix(scale, rotate, translate) = (S * R) * T. */
  function MakeAffineMatrix(s: Vector3, x: Trig, y: Trig, z: Trig, t: Vector3): (r: Matrix4x4)
  {
    Multiply(Multiply(MakeScaleMatrix(s), MakeRotateMatrix(x, y, z)), MakeTranslateMatrix(t))
  }

  /** Row 3 and column 3 are those of the identity: the matrix moves nothing by itself. */
  predicate IsLinear(m: Matrix4x4)
  {
    && m[3][0] == 0.0 && m[3][1] == 0.0 && m[3][2] == 0.0 && m[3][3] == 1.0
    && m[0][3] == 0.0 && m[1][3] == 0.0 && m[2][3] == 0.0
  }

  // ---- Laws ----

  lemma {:induction false} IdentityIsUnit(m: Matrix4x4)
    ensures Multiply(MakeIdentity4x4(), m) == m
    ensures Multiply(m, MakeIdentity4x4()) == m
  {
    var id := MakeIdentity4x4();
    forall i, j | 0 <= i < 4 && 0 <= j < 4
      ensures Multiply(id, m)[i][j] == m[i][j] && Multiply(m, id)[i][j] == m[i][j]
    {
      assert RowColumn(id, m, i, j) == m[i][j];
      assert RowColumn(m, id, i, j) == m[i][j];
    }
    Extensionality(Multiply(id, m), m);
    Extensionality(Multiply(m, id), m);
  }

  lemma {:induction false} TranslateIsIdentityButRow3(t: Vector3)
    ensures forall i, j | 0 <= i < 3 && 0 <= j < 4 :: MakeTranslateMatrix(t)[i][j] == MakeIdentity4x4()[i][j]
    ensures MakeTranslateMatrix(t)[3] == [t.x, t.y, t.z, 1.0]
  {
  }

  lemma {:induction false} TranslationsCompose(a: Vector3, b: Vector3)
    ensures Multiply(MakeTranslateMatrix(a), MakeTranslateMatrix(b)) == MakeTranslateMatrix(Add(a, b))
  {
    var p := Multiply(MakeTranslateMatrix(a), MakeTranslateMatrix(b));
    Extensionality(p, MakeTranslateMatrix(Add(a, b)));
  }

  lemma {:induction false} ScaleIsDiagonal(s: Vector3)
    ensures forall i, j | 0 <= i < 4 && 0 <= j < 4 && i != j :: MakeScaleMatrix(s)[i][j] == 0.0
    ensures MakeScaleMatrix(s)[0][0] == s.x && MakeScaleMatrix(s)[1][1] == s.y
    ensures MakeScaleMatrix(s)[2][2] == s.z && MakeScaleMatrix(s)[3][3] == 1.0
  {
  }

  lemma {:induction false} ScalesCompose(a: Vector3, b: Vector3)
    ensures Multiply(MakeScaleMatrix(a), MakeScaleMatrix(b)) == MakeScaleMatrix(Vector3(a.x * b.x, a.y * b.y, a.z * b.z))
  {
    var p := Multiply(MakeScaleMatrix(a), MakeScaleMatrix(b));
    Extensionality(p, MakeScaleMatrix(Vector3(a.x * b.x, a.y * b.y, a.z * b.z)));
  }

  /** The product of two linear matrices is linear. */
  lemma {:induction false} LinearClosed(a: Matrix4x4, b: Matrix4x4)
    requires IsLinear(a) && IsLinear(b)
    ensures IsLinear(Multiply(a, b))
  {
    var p := Multiply(a, b);
    assert p[3][0] == RowColumn(a, b, 3, 0) == b[3][0];
    assert p[3][1] == RowColumn(a, b, 3, 1) == b[3][1];
    assert p[3][2] == RowColumn(a, b, 3, 2) == b[3][2];
    assert p[3][3] == RowColumn(a, b, 3, 3) == b[3][3];
    assert p[0][3] == RowColumn(a, b, 0, 3) == a[0][3];
    assert p[1][3] == RowColumn(a, b, 1, 3) == a[1][3];
    assert p[2][3] == RowColumn(a, b, 2, 3) == a[2][3];
  }

  lemma {:induction false} RotationsAreLinear(x: Trig, y: Trig, z: Trig)
    ensures IsLinear(MakeRotateXMatrix(x)) && IsLinear(MakeRotateYMatrix(y)) && IsLinear(MakeRotateZMatrix(z))
    ensures IsLinear(Multiply(MakeRotateXMatrix(x), Multiply(MakeRotateYMatrix(y), MakeRotateZMatrix(z))))
  {
    LinearClosed(MakeRotateYMatrix(y), MakeRotateZMatrix(z));
    LinearClosed(MakeRotateXMatrix(x), Multiply(MakeRotateYMatrix(y), MakeRotateZMatrix(z)));
  }

  /** Row i of S * R is row i of R scaled by s_i (s_3 = 1). */
  lemma {:induction false} ScaleTimes(s: Vector3, r: Matrix4x4)
    ensures forall j | 0 <= j < 4 ::
      && Multiply(MakeScaleMatrix(s), r)[0][j] == s.x * r[0][j]
      && Multiply(MakeScaleMatrix(s), r)[1][j] == s.y * r[1][j]
      && Multiply(MakeScaleMatrix(s), r)[2][j] == s.z * r[2][j]
      && Multiply(MakeScaleMatrix(s), r)[3][j] == r[3][j]
  {
    var sm := MakeScaleMatrix(s);
    forall j | 0 <= j < 4
      ensures Multiply(sm, r)[0][j] == s.x * r[0][j] && Multiply(sm, r)[1][j] == s.y * r[1][j]
      ensures Multiply(sm, r)[2][j] == s.z * r[2][j] && Multiply(sm, r)[3][j] == r[3][j]
    {
      assert RowColumn(sm, r, 0, j) == s.x * r[0][j];
      assert RowColumn(sm, r, 1, j) == s.y * r[1][j];
      assert RowColumn(sm, r, 2, j) == s.z * r[2][j];
      assert RowColumn(sm, r, 3, j) == r[3][j];
    }
  }

  /** Row i of m times T(t): each of the first three entries gains m[i][3] times the
      translation's component, and the last is m[i][3]. */
  lemma {:induction false} RowTimesTranslate(m: Matrix4x4, t: Vector3, i: nat)
    requires i < 4
    ensures RowColumn(m, MakeTranslateMatrix(t), i, 0) == m[i][0] + m[i][3] * t.x
    ensures RowColumn(m, MakeTranslateMatrix(t), i, 1) == m[i][1] + m[i][3] * t.y
    ensures RowColumn(m, MakeTranslateMatrix(t), i, 2) == m[i][2] + m[i][3] * t.z
    ensures RowColumn(m, MakeTranslateMatrix(t), i, 3) == m[i][3]
  {
    var tm := MakeTranslateMatrix(t);
    var a, b, c, d := m[i][0], m[i][1], m[i][2], m[i][3];
    assert RowColumn(m, tm, i, 0) == a * 1.0 + b * 0.0 + c * 0.0 + d * t.x;
    assert RowColumn(m, tm, i, 1) == a * 0.0 + b * 1.0 + c * 0.0 + d * t.y;
    assert RowColumn(m, tm, i, 2) == a * 0.0 + b * 0.0 + c * 1.0 + d * t.z;
    assert RowColumn(m, tm, i, 3) == a * 0.0 + b * 0.0 + c * 0.0 + d * 1.0;
  }

  /** Multiplying by T on the right adds t to row 3 and leaves the rest of a matrix
      whose column 3 is (0, 0, 0, 1) alone. */
  lemma {:induction false} TimesTranslate(m: Matrix4x4, t: Vector3)
    requires m[0][3] == 0.0 && m[1][3] == 0.0 && m[2][3] == 0.0 && m[3][3] == 1.0
    ensures forall i, j | 0 <= i < 3 && 0 <= j < 4 :: Multiply(m, MakeTranslateMatrix(t))[i][j] == m[i][j]
    ensures Multiply(m, MakeTranslateMatrix(t))[3] == [m[3][0] + t.x, m[3][1] + t.y, m[3][2] + t.z, 1.0]
  {
    var tm := MakeTranslateMatrix(t);
    var p := Multiply(m, tm);
    forall i, j | 0 <= i < 3 && 0 <= j < 4
      ensures p[i][j] == m[i][j]
    {
      RowTimesTranslate(m, t, i);
      assert m[i][3] * t.x == 0.0 && m[i][3] * t.y == 0.0 && m[i][3] * t.z == 0.0;
      assert p[i][j] == RowColumn(m, tm, i, j);
    }
    RowTimesTranslate(m, t, 3);
    assert m[3][3] * t.x == t.x && m[3][3] * t.y == t.y && m[3][3] * t.z == t.z;
    var row := [m[3][0] + t.x, m[3][1] + t.y, m[3][2] + t.z, 1.0];
    assert p[3][0] == RowColumn(m, tm, 3, 0) == row[0];
    assert p[3][1] == RowColumn(m, tm, 3, 1) == row[1];
    assert p[3][2] == RowColumn(m, tm, 3, 2) == row[2];
    assert p[3][3] == RowColumn(m, tm, 3, 3) == row[3];
    assert |p[3]| == 4;
  }

  /** (S * R) * T for a linear R. */
  lemma {:induction false} ScaleLinearTranslate(s: Vector3, r: Matrix4x4, t: Vector3)
    requires IsLinear(r)
    ensures Multiply(Multiply(MakeScaleMatrix(s), r), MakeTranslateMatrix(t))[3] == [t.x, t.y, t.z, 1.0]
    ensures forall j | 0 <= j < 3 ::
      && Multiply(Multiply(MakeScaleMatrix(s), r), MakeTranslateMatrix(t))[0][j] == s.x * r[0][j]
      && Multiply(Multiply(MakeScaleMatrix(s), r), MakeTranslateMatrix(t))[1][j] == s.y * r[1][j]
      && Multiply(Multiply(MakeScaleMatrix(s), r), MakeTranslateMatrix(t))[2][j] == s.z * r[2][j]
    ensures forall i | 0 <= i < 3 :: Multiply(Multiply(MakeScaleMatrix(s), r), MakeTranslateMatrix(t))[i][3] == 0.0
  {
    var sr := Multiply(MakeScaleMatrix(s), r);
    ScaleTimes(s, r);
    assert sr[0][3] == 0.0 && sr[1][3] == 0.0 && sr[2][3] == 0.0 && sr[3][3] == 1.0;
    assert sr[3][0] == 0.0 && sr[3][1] == 0.0 && sr[3][2] == 0.0;
    TimesTranslate(sr, t);
  }

  /** MakeAffineMatrix: whatever the rotation angles, row 3 is the translation followed
      by 1, column 3 is (0, 0, 0, 1), and the upper-left 3x3 block is R = Rx * (Ry * Rz)
      with row i scaled by s_i. */
  lemma {:induction false} AffineLayout(s: Vector3, x: Trig, y: Trig, z: Trig, t: Vector3)
    ensures MakeAffineMatrix(s, x, y, z, t)[3] == [t.x, t.y, t.z, 1.0]
    ensures forall j | 0 <= j < 3 ::
      && MakeAffineMatrix(s, x, y, z, t)[0][j] == s.x * MakeRotateMatrix(x, y, z)[0][j]
      && MakeAffineMatrix(s, x, y, z, t)[1][j] == s.y * MakeRotateMatrix(x, y, z)[1][j]
      && MakeAffineMatrix(s, x, y, z, t)[2][j] == s.z * MakeRotateMatrix(x, y, z)[2][j]
    ensures forall i | 0 <= i < 3 :: MakeAffineMatrix(s, x, y, z, t)[i][3] == 0.0
  {
    ScaleLinearTranslate(s, MakeRotateMatrix(x, y, z), t);
  }
}
