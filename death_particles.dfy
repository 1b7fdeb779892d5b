/** DeathParticles.cpp / DeathParticles.h: the burst shown when the player dies. Eight
    particles fly outwards, each along its own direction, while the burst fades out over
    one second. The direction of particle i is the rotation about z by i * 2pi/8; its
    cosine and sine are engine values, so they are given to Update as numbers. */
module DeathParticles {
  import opened Numeric
  import opened VectorMath
  import Matrix

  const NumParticles: nat := 8
  const Duration: real := 1.0
  const Speed: real := 0.1

  /** Transform(vec, mat): the row vector vec times the upper-left 3x3 block of mat. */
  function Transform(v: Vector3, m: Matrix.Matrix4x4): Vector3
  {
    Vector3(v.x * m[0][0] + v.y * m[1][0] + v.z * m[2][0],
            v.x * m[0][1] + v.y * m[1][1] + v.z * m[2][1],
            v.x * m[0][2] + v.y * m[1][2] + v.z * m[2][2])
  }

  /** The identity leaves a vector as it is. */
  lemma {:induction false} TransformIdentity(v: Vector3)
    ensures Transform(v, Matrix.MakeIdentity4x4()) == v
  {
    var id := Matrix.MakeIdentity4x4();
    assert id[0][0] == 1.0 && id[1][1] == 1.0 && id[2][2] == 1.0;
    assert id[0][1] == 0.0 && id[0][2] == 0.0 && id[1][0] == 0.0;
    assert id[1][2] == 0.0 && id[2][0] == 0.0 && id[2][1] == 0.0;
  }

  /** Only the upper-left 3x3 block is read: row 3 and column 3 make no difference. */
  lemma {:induction false} TransformReadsOnlyBlock(v: Vector3, m1: Matrix.Matrix4x4, m2: Matrix.Matrix4x4)
    requires forall i, j | 0 <= i < 3 && 0 <= j < 3 :: m1[i][j] == m2[i][j]
    ensures Transform(v, m1) == Transform(v, m2)
  {
    assert m1[0][0] == m2[0][0] && m1[0][1] == m2[0][1] && m1[0][2] == m2[0][2];
    assert m1[1][0] == m2[1][0] && m1[1][1] == m2[1][1] && m1[1][2] == m2[1][2];
    assert m1[2][0] == m2[2][0] && m1[2][1] == m2[2][1] && m1[2][2] == m2[2][2];
  }

  /** Hence a translation matrix moves no direction vector. */
  lemma {:induction false} TransformIgnoresTranslation(v: Vector3, t: Vector3)
    ensures Transform(v, Matrix.MakeTranslateMatrix(t)) == v
  {
    Matrix.TranslateIsIdentityButRow3(t);
    TransformReadsOnlyBlock(v, Matrix.MakeTranslateMatrix(t), Matrix.MakeIdentity4x4());
    TransformIdentity(v);
  }

  /** The per-frame velocity of a particle whose direction has cosine and sine d: the
      base velocity (kSpeed, 0, 0) turned by MakeRotateZMatrix. */
  function ParticleVelocity(d: Matrix.Trig): (r: Vector3)
    ensures r == Vector3(Speed * d.cos, Speed * d.sin, 0.0)
  {
    Transform(Vector3(Speed, 0.0, 0.0), Matrix.MakeRotateZMatrix(d))
  }

  /** For a true cosine/sine pair every particle moves at speed kSpeed. */
  lemma {:induction false} ParticleSpeed(d: Matrix.Trig)
    requires d.cos * d.cos + d.sin * d.sin == 1.0
    ensures IsLength(ParticleVelocity(d), Speed)
  {
    var v := ParticleVelocity(d);
    assert Dot(v, v) == (Speed * Speed) * (d.cos * d.cos + d.sin * d.sin);
  }

  /** The burst's opacity for a counter value: 1 - counter / kDuration, clamped. */
  function Alpha(counter: real): (r: real)
    ensures 0.0 <= r <= 1.0
    ensures 0.0 <= counter <= Duration ==> r + counter == Duration
  {
    Clamp(1.0 - counter / Duration, 0.0, 1.0)
  }

  class DeathParticles {
    /** worldTransforms_, reduced to their translations. */
    var translations: array<Vector3>
    var isFinished: bool
    var counter: real
    /** color_.w. */
    var alpha: real

    /** The counter stays within [0, kDuration] and the burst is finished exactly when
        it has reached kDuration. */
    ghost predicate Valid()
      reads this
    {
      && translations.Length == NumParticles
      && 0.0 <= counter <= Duration
      && (isFinished <==> counter == Duration)
      && 0.0 <= alpha <= 1.0
    }

    /** IsFinished(). */
    function IsFinished(): (r: bool)
      reads this
      ensures Valid() ==> (r <==> counter == Duration)
    {
      isFinished
    }

    /** Initialize: every particle starts at position, with the default flag and counter
        and an opaque colour. */
    constructor (position: Vector3)
      ensures Valid() && fresh(translations)
      ensures !isFinished && counter == 0.0 && alpha == 1.0
      ensures forall i | 0 <= i < NumParticles :: translations[i] == position
    {
      translations := new Vector3[NumParticles](_ => position);
      isFinished := false;
      counter := 0.0;
      alpha := 1.0;
    }

    /** Update for one frame. directions[i] is the cosine and sine of particle i's angle. */
    method Update(directions: seq<Matrix.Trig>)
      requires Valid() && |directions| == NumParticles
      modifies this, translations
      ensures Valid() && translations == old(translations)
      // A finished burst is left exactly as it was.
      ensures old(isFinished) ==>
                isFinished && counter == old(counter) && alpha == old(alpha)
                && translations[..] == old(translations[..])
      // Otherwise every particle moves by its own velocity, the alpha is taken from the
      // counter before it advances, and the counter advances by a frame up to kDuration.
      ensures !old(isFinished) ==>
                && (forall i | 0 <= i < NumParticles ::
                      translations[i] == Add(old(translations[i]), ParticleVelocity(directions[i])))
                && alpha == Alpha(old(counter))
                && (old(counter) + FrameTime >= Duration ==> counter == Duration && isFinished)
                && (old(counter) + FrameTime < Duration ==> counter == old(counter) + FrameTime && !isFinished)
      ensures old(counter) <= counter
    {
      for i := 0 to NumParticles
        modifies this`alpha, translations
        invariant translations.Length == NumParticles
        invariant 0 < i ==> !isFinished && alpha == Alpha(counter)
        invariant i == 0 ==> alpha == old(alpha)
        invariant 0.0 <= alpha <= 1.0
        invariant forall k | 0 <= k < i ::
                    translations[k] == Add(old(translations[k]), ParticleVelocity(directions[k]))
        invariant forall k | i <= k < NumParticles :: translations[k] == old(translations[k])
      {
        if isFinished {
          return;
        }

        alpha := Alpha(counter);

        MoveParticle(i, directions[i]);
      }

      counter := counter + 1.0 / 60.0;

      if counter >= Duration {
        counter := Duration;
        isFinished := true;
      }
    }

    /** The body of the loop for particle i: its base velocity (kSpeed, 0, 0) is turned
        by MakeRotateZMatrix and added to its translation; no other particle moves. */
    method MoveParticle(i: nat, d: Matrix.Trig)
      requires i < translations.Length
      modifies translations
      ensures translations[i] == Add(old(translations[i]), ParticleVelocity(d))
      ensures forall k | 0 <= k < translations.Length && k != i :: translations[k] == old(translations[k])
    {
      var velocity := Vector3(Speed, 0.0, 0.0);
      var matrixRotation := Matrix.MakeRotateZMatrix(d);
      velocity := Transform(velocity, matrixRotation);

      translations[i] := Add(translations[i], velocity);
    }
  }
}
