/**
 * The vector and matrix algebra of the `euclid` crate over exact reals, with the
 * transcendental parts of the floating-point library kept abstract.
 *
 * Matrix entries follow euclid's naming: `mRC` is row R, column C, both counted
 * from 1. Points and vectors are row vectors multiplied on the left (`p * M`).
 */
module Geometry {
  import opened Wrappers

  /** euclid's `approx_epsilon()` for `f32` values and for `Angle<f32>`. */
  const EPSILON: real := 0.000001

  /** The value of π the angle checks compare against. */
  const PI: real := 3.14159265358979323846

  datatype Vec2 = Vec2(x: real, y: real)
  datatype Vec3 = Vec3(x: real, y: real, z: real)
  datatype Vec4 = Vec4(x: real, y: real, z: real, w: real)

  const ZERO: Vec3 := Vec3(0.0, 0.0, 0.0)

  function Add(a: Vec3, b: Vec3): Vec3 { Vec3(a.x + b.x, a.y + b.y, a.z + b.z) }
  function Sub(a: Vec3, b: Vec3): Vec3 { Vec3(a.x - b.x, a.y - b.y, a.z - b.z) }
  function Neg(a: Vec3): Vec3 { Vec3(-a.x, -a.y, -a.z) }
  function Scale(a: Vec3, s: real): Vec3 { Vec3(a.x * s, a.y * s, a.z * s) }
  function Dot(a: Vec3, b: Vec3): real { a.x * b.x + a.y * b.y + a.z * b.z }
  function Cross(a: Vec3, b: Vec3): Vec3 {
    Vec3(a.y * b.z - a.z * b.y, a.z * b.x - a.x * b.z, a.x * b.y - a.y * b.x)
  }

  /** Pads a point with w = 1, or a direction with w = 0. */
  function Extend(v: Vec3, w: real): Vec4 { Vec4(v.x, v.y, v.z, w) }

  /** euclid's `approx_eq` on one scalar: the difference is strictly below epsilon. */
  predicate ApproxEq(a: real, b: real) { -EPSILON < a - b < EPSILON }

  /** euclid's `approx_eq` on points and vectors: every component is approximately equal. */
  predicate ApproxEqVec(a: Vec3, b: Vec3) {
    ApproxEq(a.x, b.x) && ApproxEq(a.y, b.y) && ApproxEq(a.z, b.z)
  }

  datatype Mat4 = Mat4(
    m11: real, m12: real, m13: real, m14: real,
    m21: real, m22: real, m23: real, m24: real,
    m31: real, m32: real, m33: real, m34: real,
    m41: real, m42: real, m43: real, m44: real)

  /** A matrix whose fourth column is (0, 0, 0, 1): it keeps w = 1 on every point. */
  predicate IsAffine(m: Mat4) { m.m14 == 0.0 && m.m24 == 0.0 && m.m34 == 0.0 && m.m44 == 1.0 }

  /** `transform_point3d_homogeneous`: the point (x, y, z, 1) times the matrix. */
  function TransformHomogeneous(m: Mat4, p: Vec3): Vec4 {
    Vec4(p.x * m.m11 + p.y * m.m21 + p.z * m.m31 + m.m41,
         p.x * m.m12 + p.y * m.m22 + p.z * m.m32 + m.m42,
         p.x * m.m13 + p.y * m.m23 + p.z * m.m33 + m.m43,
         p.x * m.m14 + p.y * m.m24 + p.z * m.m34 + m.m44)
  }

  /** `HomogeneousVector::to_point3d`: divides by w, and yields nothing unless w > 0. */
  function ToPoint(h: Vec4): (r: Option<Vec3>)
    ensures r.Some? <==> h.w > 0.0
  {
    if h.w > 0.0 then Some(Vec3(h.x / h.w, h.y / h.w, h.z / h.w)) else None
  }

  /** `transform_point3d`. */
  function TransformPoint(m: Mat4, p: Vec3): Option<Vec3> {
    ToPoint(TransformHomogeneous(m, p))
  }

  /** `transform_vector3d`: the vector (x, y, z, 0) times the matrix; translation is ignored. */
  function TransformVector(m: Mat4, v: Vec3): Vec3 {
    Vec3(v.x * m.m11 + v.y * m.m21 + v.z * m.m31,
         v.x * m.m12 + v.y * m.m22 + v.z * m.m32,
         v.x * m.m13 + v.y * m.m23 + v.z * m.m33)
  }

  /** `pre_translate(v)`: translate by v first, then apply m. Only the fourth row changes. */
  function PreTranslate(m: Mat4, v: Vec3): Mat4 {
    m.(m41 := v.x * m.m11 + v.y * m.m21 + v.z * m.m31 + m.m41,
       m42 := v.x * m.m12 + v.y * m.m22 + v.z * m.m32 + m.m42,
       m43 := v.x * m.m13 + v.y * m.m23 + v.z * m.m33 + m.m43,
       m44 := v.x * m.m14 + v.y * m.m24 + v.z * m.m34 + m.m44)
  }

  /** Pre-translating an affine matrix keeps it affine. */
  lemma PreTranslateAffine(m: Mat4, v: Vec3)
    requires IsAffine(m)
    ensures IsAffine(PreTranslate(m, v))
  {
  }

  lemma NegMul(a: real, b: real)
    ensures (-a) * b == -(a * b)
  {
  }

  /**
   * A linear map pre-translated by −p sends p to the origin: the translation
   * undoes the point before the linear part sees it.
   */
  lemma PreTranslateCancels(m: Mat4, p: Vec3)
    requires IsAffine(m) && m.m41 == 0.0 && m.m42 == 0.0 && m.m43 == 0.0
    ensures TransformHomogeneous(PreTranslate(m, Neg(p)), p) == Vec4(0.0, 0.0, 0.0, 1.0)
  {
    NegMul(p.x, m.m11); NegMul(p.y, m.m21); NegMul(p.z, m.m31);
    NegMul(p.x, m.m12); NegMul(p.y, m.m22); NegMul(p.z, m.m32);
    NegMul(p.x, m.m13); NegMul(p.y, m.m23); NegMul(p.z, m.m33);
  }

  /** Scaling by a sign and then by a factor, with opposite signs, cancels out. */
  lemma OppositeScalesCancel(v: Vec3, k: real)
    ensures Add(Scale(Scale(v, 1.0), k), Scale(Scale(v, -1.0), k)) == ZERO
  {
    NegMul(v.x, k); NegMul(v.y, k); NegMul(v.z, k);
  }

  /** The one fact about `tan` the model uses: it is positive on (0, π/2). */
  predicate TanLaw(f: real -> real, x: real) {
    0.0 < x < PI / 2.0 ==> 0.0 < f(x)
  }

  /** The facts about `sqrt` the model uses: non-negative, and positive exactly off zero. */
  predicate SqrtLaw(f: real -> real, x: real) {
    0.0 <= x ==> (0.0 <= f(x) && (0.0 < x <==> 0.0 < f(x)))
  }

  /**
   * The two values of `atan2(y, x)` the model uses, both exact in IEEE
   * arithmetic: 0 on the positive x axis, π/2 on the positive y axis.
   */
  predicate Atan2Law(f: (real, real) -> real, y: real, x: real) {
    && (y == 0.0 && 0.0 < x ==> f(y, x) == 0.0)
    && (0.0 < y && x == 0.0 ==> f(y, x) == PI / 2.0)
  }

  /**
   * The fact about matrix inversion the model uses: the inverse of an affine
   * matrix is affine. The source asserts that the view transform is always
   * invertible, so inversion is total here.
   */
  predicate InverseLaw(f: Mat4 -> Mat4, m: Mat4) {
    IsAffine(m) ==> IsAffine(f(m))
  }

  // Each law is stated through a named predicate so that it is used only where a
  // proof asks for it by name.
  type TanFn = f: real -> real | forall x :: TanLaw(f, x)
    witness (x: real) => 1.0
  type SqrtFn = f: real -> real | forall x :: SqrtLaw(f, x)
    witness (x: real) => if x > 0.0 then x else 0.0
  type InverseFn = f: Mat4 -> Mat4 | forall m :: InverseLaw(f, m)
    witness (m: Mat4) => m
  type Atan2Fn = f: (real, real) -> real | forall y, x :: Atan2Law(f, y, x)
    witness (y: real, x: real) => if y == 0.0 then 0.0 else PI / 2.0

  /** The floating-point library the model cannot compute, supplied by the caller. */
  datatype Libm = Libm(tan: TanFn, sqrt: SqrtFn, atan2: Atan2Fn, inverse: InverseFn)

  /** The square of a real. Kept as a function so the solver treats squares as atoms. */
  function Sq(c: real): real { c * c }

  /** The square root is exact: used only by the lemmas that need it. */
  ghost predicate ExactSqrt(math: Libm) {
    forall x :: SqrtExactAt(math.sqrt, x)
  }

  predicate SqrtExactAt(f: real -> real, x: real) {
    0.0 <= x ==> Sq(f(x)) == x
  }

  /** `square_length`: the dot product of a vector with itself. */
  function SquareLength(v: Vec3): real { Sq(v.x) + Sq(v.y) + Sq(v.z) }

  function Length(math: Libm, v: Vec3): real { math.sqrt(SquareLength(v)) }

  function Length2(math: Libm, v: Vec2): real { math.sqrt(Sq(v.x) + Sq(v.y)) }

  /**
   * `normalize`: the vector divided by its length. A zero vector, for which f32
   * arithmetic yields NaN components, is left unchanged.
   */
  function Normalize(math: Libm, v: Vec3): Vec3 {
    var len := Length(math, v);
    if len == 0.0 then v else Scale(v, 1.0 / len)
  }

  /** `normalize` on a 2D vector; a zero vector is left unchanged as in `Normalize`. */
  function Normalize2(math: Libm, v: Vec2): Vec2 {
    var len := Length2(math, v);
    if len == 0.0 then v else Vec2(v.x / len, v.y / len)
  }

  /** `angle_to`: the angle between two vectors, as atan2(|a × b|, a · b). */
  function AngleTo(math: Libm, a: Vec3, b: Vec3): real {
    math.atan2(Length(math, Cross(a, b)), Dot(a, b))
  }

  /** A vector along −z normalises to one along −z. */
  lemma NormalizeAlongNegativeZ(math: Libm, z: real)
    requires z < 0.0
    ensures var n := Normalize(math, Vec3(0.0, 0.0, z)); n.x == 0.0 && n.y == 0.0 && n.z < 0.0
  {
    var v := Vec3(0.0, 0.0, z);
    SqSign(0.0);
    SqSign(z);
    assert SqrtLaw(math.sqrt, SquareLength(v));
    var len := Length(math, v);
    assert 0.0 < len;
    MulPositive(-z, 1.0 / len);
    NegMul(z, 1.0 / len);
  }

  lemma MulPositive(a: real, b: real)
    requires 0.0 < a && 0.0 < b
    ensures 0.0 < a * b
  {
  }

  lemma MulNonNegative(a: real, b: real)
    requires 0.0 <= a && 0.0 <= b
    ensures 0.0 <= a * b
  {
  }

  /** A square is never negative, and is positive exactly off zero. */
  lemma SqSign(c: real)
    ensures 0.0 <= Sq(c)
    ensures c != 0.0 ==> 0.0 < Sq(c)
  {
    var a := if c < 0.0 then -c else c;
    assert Sq(c) == a * a;
    if a > 0.0 {
      calc {
        Sq(c);
        a * a;
      > { MulPositive(a, a); }
        0.0;
      }
    }
  }

  lemma SqNeg(c: real)
    ensures Sq(-c) == Sq(c)
  {
  }

  /** Squaring is strictly increasing on the non-negative reals. */
  lemma SqStrictlyIncreasing(s: real, a: real)
    requires 0.0 <= s < a
    ensures Sq(s) < Sq(a)
  {
    var d := a - s;
    calc {
      Sq(a);
      (s + d) * (s + d);
      Sq(s) + (2.0 * s + d) * d;
    > { MulPositive(2.0 * s + d, d); }
      Sq(s);
    }
  }

  /** Two non-negative reals with equal squares are equal. */
  lemma EqualSquares(s: real, a: real)
    requires Sq(s) == Sq(a) && 0.0 <= s && 0.0 <= a
    ensures s == a
  {
    if s < a {
      SqStrictlyIncreasing(s, a);
    } else if a < s {
      SqStrictlyIncreasing(a, s);
    }
  }

  /** With an exact square root, the root of a square is the non-negative base. */
  lemma SqrtOfSquare(math: Libm, a: real)
    requires ExactSqrt(math) && 0.0 <= a
    ensures math.sqrt(Sq(a)) == a
  {
    SqSign(a);
    assert SqrtLaw(math.sqrt, Sq(a)) && SqrtExactAt(math.sqrt, Sq(a));
    EqualSquares(math.sqrt(Sq(a)), a);
  }
}
