/** Quaternions as the arm uses them (glam's `Quat`), over the reals.
    The Hamilton product and the conjugate are polynomial and are modelled
    exactly; sine, cosine and the reciprocal square root are library
    numerics and are supplied by a `MathLib` value. */
module Quaternions {
  import opened Vectors

  /** A quaternion `w + x i + y j + z k`; glam stores it as (x, y, z, w). */
  datatype Quat = Quat(w: real, x: real, y: real, z: real)

  const Identity := Quat(1.0, 0.0, 0.0, 0.0)

  /** The Hamilton product `a * b`. */
  function Mul(a: Quat, b: Quat): Quat {
    Quat(a.w * b.w - a.x * b.x - a.y * b.y - a.z * b.z,
         a.w * b.x + a.x * b.w + a.y * b.z - a.z * b.y,
         a.w * b.y - a.x * b.z + a.y * b.w + a.z * b.x,
         a.w * b.z + a.x * b.y - a.y * b.x + a.z * b.w)
  }

  /** `Quat::conjugate`: negates the vector part. */
  function Conjugate(q: Quat): (r: Quat)
    ensures Quat(r.w, -r.x, -r.y, -r.z) == q
  {
    Quat(q.w, -q.x, -q.y, -q.z)
  }

  /** The squared length `q . q`. */
  function NormSq(q: Quat): (r: real)
    ensures r >= 0.0
  {
    SumSq(q.w, q.x, q.y, q.z)
  }

  /** `w^2 + x^2 + y^2 + z^2` */
  function SumSq(w: real, x: real, y: real, z: real): real {
    w * w + x * x + y * y + z * z
  }

  /** Every component multiplied by `s`. */
  function ScaleQuat(q: Quat, s: real): Quat {
    Quat(q.w * s, q.x * s, q.y * s, q.z * s)
  }

  /** `Quat::xyz`: the vector (imaginary) part. */
  function VectorPart(q: Quat): Vec3 {
    Vec3(q.x, q.y, q.z)
  }

  /** The pure quaternion `0 + v`. */
  function FromVector(v: Vec3): Quat
  {
    Quat(0.0, v.x, v.y, v.z)
  }

  /** `q * v` for a vector: the vector part of `q v q*`, which for a unit `q`
      is the rotation of `v` by `q`. */
  function Rotate(q: Quat, v: Vec3): Vec3 {
    VectorPart(Mul(Mul(q, FromVector(v)), Conjugate(q)))
  }

  lemma MulIdentity(q: Quat)
    ensures Mul(Identity, q) == q && Mul(q, Identity) == q
  {
  }

  /** Multiplied by `q` on either side, the conjugate gives the real number
      `|q|^2`: for a unit `q` the conjugate is the inverse rotation. */
  lemma ConjugateProduct(q: Quat)
    ensures Mul(Conjugate(q), q) == Quat(NormSq(q), 0.0, 0.0, 0.0)
    ensures Mul(q, Conjugate(q)) == Quat(NormSq(q), 0.0, 0.0, 0.0)
    ensures NormSq(Conjugate(q)) == NormSq(q)
  {
  }

  /** Conjugation is an involution and reverses products: `(a b)* == b* a*`. */
  lemma ConjugateOfProduct(a: Quat, b: Quat)
    ensures Conjugate(Conjugate(a)) == a
    ensures Conjugate(Mul(a, b)) == Mul(Conjugate(b), Conjugate(a))
  {
  }

  /** The norm is multiplicative: `|a b|^2 == |a|^2 |b|^2`, so a product of
      unit quaternions is a unit quaternion. */
  lemma NormMultiplicative(a: Quat, b: Quat)
    ensures NormSq(Mul(a, b)) == NormSq(a) * NormSq(b)
  {
    var m := Mul(a, b);
    FourSquares(a.w, a.x, a.y, a.z, b.w, b.x, b.y, b.z, m.w, m.x, m.y, m.z);
  }

  /** Euler's four-square identity, the scalar core of `NormMultiplicative`:
      `m` is the Hamilton product of `a` and `b`. */
  lemma FourSquares(a1: real, a2: real, a3: real, a4: real, b1: real, b2: real, b3: real, b4: real,
                    m1: real, m2: real, m3: real, m4: real)
    requires m1 == a1 * b1 - a2 * b2 - a3 * b3 - a4 * b4
    requires m2 == a1 * b2 + a2 * b1 + a3 * b4 - a4 * b3
    requires m3 == a1 * b3 - a2 * b4 + a3 * b1 + a4 * b2
    requires m4 == a1 * b4 + a2 * b3 - a3 * b2 + a4 * b1
    ensures SumSq(m1, m2, m3, m4) == SumSq(a1, a2, a3, a4) * SumSq(b1, b2, b3, b4)
  {
    FourSquaresExpanded(a1, a2, a3, a4, b1, b2, b3, b4, m1, m2, m3, m4,
                        SumSq(a1, a2, a3, a4), SumSq(b1, b2, b3, b4));
  }

  /** `FourSquares` with the sums of squares written out. */
  lemma FourSquaresExpanded(a1: real, a2: real, a3: real, a4: real, b1: real, b2: real, b3: real, b4: real,
                            m1: real, m2: real, m3: real, m4: real, na: real, nb: real)
    requires m1 == a1 * b1 - a2 * b2 - a3 * b3 - a4 * b4
    requires m2 == a1 * b2 + a2 * b1 + a3 * b4 - a4 * b3
    requires m3 == a1 * b3 - a2 * b4 + a3 * b1 + a4 * b2
    requires m4 == a1 * b4 + a2 * b3 - a3 * b2 + a4 * b1
    requires na == a1 * a1 + a2 * a2 + a3 * a3 + a4 * a4
    requires nb == b1 * b1 + b2 * b2 + b3 * b3 + b4 * b4
    ensures m1 * m1 + m2 * m2 + m3 * m3 + m4 * m4 == na * nb
  {
  }

  /** A unit quaternion is a rigid rotation: it keeps the length of every vector. */
  lemma RotateKeepsLength(q: Quat, v: Vec3)
    ensures NormSq(q) == 1.0 ==> LengthSq(Rotate(q, v)) == LengthSq(v)
  {
    NormMultiplicative(q, FromVector(v));
    NormMultiplicative(Mul(q, FromVector(v)), Conjugate(q));
    ConjugateProduct(q);
  }

  /** The identity rotation moves no vector. */
  lemma RotateByIdentity(v: Vec3)
    ensures Rotate(Identity, v) == v
  {
    MulIdentity(FromVector(v));
    assert Conjugate(Identity) == Identity;
    MulIdentity(FromVector(v));
  }

  /** No rotation moves the zero vector. */
  lemma RotateZero(q: Quat)
    ensures Rotate(q, Zero) == Zero
  {
    var m := Mul(q, FromVector(Zero));
    assert m == Quat(0.0, 0.0, 0.0, 0.0);
  }

  /** An elementary rotation `(c, s e)` times `(c, -s e)` about the same
      cardinal axis `e` is the real number `c^2 + s^2`. */
  lemma ElementaryInverse(c: real, s: real)
    ensures Mul(Quat(c, s, 0.0, 0.0), Quat(c, -s, 0.0, 0.0)) == Quat(c * c + s * s, 0.0, 0.0, 0.0)
    ensures Mul(Quat(c, 0.0, s, 0.0), Quat(c, 0.0, -s, 0.0)) == Quat(c * c + s * s, 0.0, 0.0, 0.0)
    ensures Mul(Quat(c, 0.0, 0.0, s), Quat(c, 0.0, 0.0, -s)) == Quat(c * c + s * s, 0.0, 0.0, 0.0)
  {
  }

  /** Sine and cosine of HALF an angle, as glam's `from_rotation_*` use them. */
  datatype HalfSinCos = HalfSinCos(sin: real, cos: real)

  /** The floating-point library functions the arm relies on: `(a * 0.5).sin_cos()`
      and `length_recip` (one over the square root). */
  datatype MathLib = MathLib(halfSinCos: real -> HalfSinCos, lengthRecip: real -> real)

  /** The laws of the half-angle sine and cosine that the proofs use:
      the zero angle, odd sine and even cosine, and the Pythagorean identity. */
  ghost predicate TrigLaws(lib: MathLib) {
    && lib.halfSinCos(0.0) == HalfSinCos(0.0, 1.0)
    && (forall a :: lib.halfSinCos(-a) == HalfSinCos(-lib.halfSinCos(a).sin, lib.halfSinCos(a).cos))
    && (forall a :: lib.halfSinCos(a).sin * lib.halfSinCos(a).sin + lib.halfSinCos(a).cos * lib.halfSinCos(a).cos == 1.0)
  }

  /** `Quat::from_rotation_x(angle)` */
  function FromRotationX(lib: MathLib, angle: real): Quat {
    var sc := lib.halfSinCos(angle);
    Quat(sc.cos, sc.sin, 0.0, 0.0)
  }

  /** `Quat::from_rotation_y(angle)` */
  function FromRotationY(lib: MathLib, angle: real): Quat {
    var sc := lib.halfSinCos(angle);
    Quat(sc.cos, 0.0, sc.sin, 0.0)
  }

  /** `Quat::from_rotation_z(angle)` */
  function FromRotationZ(lib: MathLib, angle: real): Quat {
    var sc := lib.halfSinCos(angle);
    Quat(sc.cos, 0.0, 0.0, sc.sin)
  }

  /** Under the trigonometric laws every elementary rotation is a unit quaternion. */
  lemma ElementaryUnit(lib: MathLib, angle: real)
    ensures TrigLaws(lib) ==> NormSq(FromRotationX(lib, angle)) == 1.0
    ensures TrigLaws(lib) ==> NormSq(FromRotationY(lib, angle)) == 1.0
    ensures TrigLaws(lib) ==> NormSq(FromRotationZ(lib, angle)) == 1.0
  {
  }

  /** The rotation by angle zero about any cardinal axis is the identity. */
  lemma ZeroAngleRotations(lib: MathLib)
    requires TrigLaws(lib)
    ensures FromRotationX(lib, 0.0) == Identity
    ensures FromRotationY(lib, 0.0) == Identity
    ensures FromRotationZ(lib, 0.0) == Identity
  {
  }

  /** The law of `length_recip` the proofs use: for a positive squared
      length `n`, the result `k` satisfies `k^2 n == 1`. */
  ghost predicate RecipSqrtLaw(lib: MathLib) {
    forall n :: n > 0.0 ==> lib.lengthRecip(n) * lib.lengthRecip(n) * n == 1.0
  }

  /** `Quat::normalize`: the quaternion scaled by one over its length. The
      result points the same way as `q` and, for a non-zero `q`, has unit length. */
  function Normalize(lib: MathLib, q: Quat): (r: Quat)
    ensures exists k :: r == ScaleQuat(q, k)
    ensures RecipSqrtLaw(lib) && NormSq(q) > 0.0 ==> NormSq(r) == 1.0
  {
    var k := lib.lengthRecip(NormSq(q));
    assert NormSq(ScaleQuat(q, k)) == k * k * NormSq(q);
    ScaleQuat(q, k)
  }
}
