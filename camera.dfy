/**
 * The scene camera of `src/scene/camera.rs`: parameter validation, the
 * symmetric-frustum perspective matrix, the view transform, and the camera
 * controls that move and rotate it.
 */
module Cameras {
  import opened Wrappers
  import opened Geometry

  /** Why building or re-aiming a camera was refused. */
  datatype CameraError =
    | FovOutOfRange       // the field of view is not within (ε, π − ε)
    | FarNotBeyondNear    // far <= near
    | NearTooSmall        // near < ε
    | AspectTooSmall      // aspect < ε
    | TargetTooClose      // the look-at target is approximately the camera position
    | UpIsZero            // the up vector is approximately zero
    | UpColinear          // the viewing direction and the up vector are colinear
    | OutsideUnitDisk     // a rotation target lies outside the unit disk

  /** The field of view is strictly inside (0, π), with euclid's epsilon as margin. */
  predicate FovInRange(fov: real) {
    !(fov < EPSILON || fov > PI - EPSILON)
  }

  /** The frustum parameters `Camera::new` accepts before it looks at any vector. */
  predicate FrustumValid(fov: real, aspect: real, near: real, far: real) {
    FovInRange(fov) && near < far && EPSILON <= near && EPSILON <= aspect
  }

  /** An angle that euclid considers approximately zero marks two vectors as colinear. */
  predicate Colinear(math: Libm, a: Vec3, b: Vec3) {
    ApproxEq(AngleTo(math, a, b), 0.0)
  }

  /**
   * The first check of `Camera::new` that fails, in the order the constructor
   * performs them, or None when the camera can be built.
   */
  function ConfigurationError(math: Libm, fov: real, aspect: real, near: real, far: real,
                              position: Vec3, lookAt: Vec3, up: Vec3): (r: Option<CameraError>)
    ensures r == None <==>
      FrustumValid(fov, aspect, near, far) && !ApproxEqVec(position, lookAt) &&
      !ApproxEqVec(up, ZERO) && !Colinear(math, up, Normalize(math, Sub(lookAt, position)))
    ensures !FovInRange(fov) ==> r == Some(FovOutOfRange)
    ensures FovInRange(fov) && far <= near ==> r == Some(FarNotBeyondNear)
    ensures r == Some(AspectTooSmall) ==> FovInRange(fov) && near < far && EPSILON <= near
    ensures r.Some? && r.value in {TargetTooClose, UpIsZero, UpColinear} ==>
      FrustumValid(fov, aspect, near, far)
    ensures r != Some(OutsideUnitDisk)
  {
    if fov < EPSILON || fov > PI - EPSILON then Some(FovOutOfRange)
    else if far <= near then Some(FarNotBeyondNear)
    else if near < EPSILON then Some(NearTooSmall)
    else if aspect < EPSILON then Some(AspectTooSmall)
    else
      var direction := Normalize(math, Sub(lookAt, position));
      if ApproxEqVec(position, lookAt) then Some(TargetTooClose)
      else if ApproxEqVec(up, ZERO) then Some(UpIsZero)
      else if Colinear(math, up, direction) then Some(UpColinear)
      else None
  }

  /** The rejection cases exercised by the camera's own test suite. */
  lemma RejectedConfigurations(math: Libm)
    ensures var p, o, y := Vec3(1.0, 0.0, 1.0), ZERO, Vec3(0.0, 1.0, 0.0);
      ConfigurationError(math, PI, 2.0, 1.0, 5.0, p, o, y) == Some(FovOutOfRange) &&
      ConfigurationError(math, 0.0, 2.0, 1.0, 5.0, p, o, y) == Some(FovOutOfRange) &&
      ConfigurationError(math, PI / 3.0, 2.0, 1.0, 0.5, p, o, y) == Some(FarNotBeyondNear) &&
      ConfigurationError(math, PI / 3.0, 2.0, 0.0, 0.5, p, o, y) == Some(NearTooSmall) &&
      ConfigurationError(math, PI / 3.0, 2.0, -1.0, 0.5, p, o, y) == Some(NearTooSmall) &&
      ConfigurationError(math, PI / 3.0, -2.0, 1.0, 5.0, p, o, y) == Some(AspectTooSmall) &&
      ConfigurationError(math, PI / 3.0, 0.0, 1.0, 5.0, p, o, y) == Some(AspectTooSmall) &&
      ConfigurationError(math, PI / 3.0, 2.0, 1.0, 5.0, p, p, y) == Some(TargetTooClose) &&
      ConfigurationError(math, PI / 3.0, 2.0, 1.0, 5.0, p, Add(p, Vec3(1.0, -1.0, 2.0)), ZERO)
        == Some(UpIsZero) &&
      ConfigurationError(math, PI / 3.0, 2.0, 1.0, 5.0, p, Add(p, Vec3(1.0, -1.0, 2.0)),
                         Scale(Vec3(1.0, -1.0, 2.0), 1.5)) == Some(UpColinear)
  {
    var d := Vec3(1.0, -1.0, 2.0);
    assert Sub(Add(Vec3(1.0, 0.0, 1.0), d), Vec3(1.0, 0.0, 1.0)) == d;
    SqSign(d.x);
    ParallelIsColinear(math, d, 1.5);
  }

  /** Two multiples of one vector have a zero cross product. */
  lemma CrossOfMultiples(d: Vec3, s: real, k: real)
    ensures Cross(Scale(d, s), Scale(d, k)) == ZERO
  {
  }

  /** Two positive multiples of one non-zero vector have a positive dot product. */
  lemma DotOfPositiveMultiples(d: Vec3, s: real, k: real)
    requires 0.0 < SquareLength(d) && 0.0 < s && 0.0 < k
    ensures 0.0 < Dot(Scale(d, s), Scale(d, k))
  {
    MulPositive(s, k);
    MulPositive(s * k, SquareLength(d));
    assert (d.x * s) * (d.x * k) == (s * k) * Sq(d.x);
    assert (d.y * s) * (d.y * k) == (s * k) * Sq(d.y);
    assert (d.z * s) * (d.z * k) == (s * k) * Sq(d.z);
  }

  /** Two positive multiples of one non-zero vector are colinear. */
  lemma PositiveMultiplesColinear(math: Libm, d: Vec3, s: real, k: real)
    requires 0.0 < SquareLength(d) && 0.0 < s && 0.0 < k
    ensures Colinear(math, Scale(d, s), Scale(d, k))
  {
    CrossOfMultiples(d, s, k);
    DotOfPositiveMultiples(d, s, k);
    SqSign(0.0);
    assert SqrtLaw(math.sqrt, SquareLength(ZERO));
    var dot := Dot(Scale(d, s), Scale(d, k));
    assert Length(math, ZERO) == 0.0;
    assert Atan2Law(math.atan2, 0.0, dot);
  }

  /** An up vector that is a positive multiple of the viewing offset is colinear with the view. */
  lemma ParallelIsColinear(math: Libm, d: Vec3, s: real)
    requires 0.0 < SquareLength(d) && 0.0 < s
    ensures Colinear(math, Scale(d, s), Normalize(math, d))
  {
    assert SqrtLaw(math.sqrt, SquareLength(d));
    var k := 1.0 / Length(math, d);
    assert 0.0 < k;
    assert Normalize(math, d) == Scale(d, k);
    PositiveMultiplesColinear(math, d, s, k);
  }

  /**
   * The perspective matrix of `Camera::new` for a near-plane half-height t:
   * b = −t, r = t·aspect and l = −r.
   */
  function Frustum(t: real, aspect: real, near: real, far: real): Mat4
    requires 0.0 < t && 0.0 < aspect && 0.0 < near < far
  {
    var b := -t;
    var r := t * aspect;
    var l := -r;
    MulPositive(t, aspect);
    Mat4(2.0 * near / (r - l), 0.0, (r + l) / (r - l), 0.0,
         0.0, -2.0 * near / (t - b), (t + b) / (t - b), 0.0,
         0.0, 0.0, -far / (far - near), -1.0,
         0.0, 0.0, -far * near / (far - near), 0.0)
  }

  /** The half-height of the near plane is positive for every accepted field of view. */
  lemma HalfHeightPositive(math: Libm, fov: real, near: real)
    requires FovInRange(fov) && EPSILON <= near
    ensures 0.0 < near * math.tan(fov / 2.0)
  {
    assert TanLaw(math.tan, fov / 2.0);
    MulPositive(near, math.tan(fov / 2.0));
  }

  /** `Camera::new`'s projection, with t = near·tan(fov/2). */
  function Projection(math: Libm, fov: real, aspect: real, near: real, far: real): Mat4
    requires FrustumValid(fov, aspect, near, far)
  {
    HalfHeightPositive(math, fov, near);
    Frustum(near * math.tan(fov / 2.0), aspect, near, far)
  }

  /**
   * The frustum is symmetric, so the projection keeps the view axis on the
   * NDC axis: its x and y outputs do not depend on z, and w is −z. The x
   * scale is near/(t·aspect), the y scale −near/t (y points down in Vulkan),
   * and depth is mapped by −far/(far−near) and −far·near/(far−near).
   */
  lemma FrustumShape(t: real, aspect: real, near: real, far: real)
    requires 0.0 < t && 0.0 < aspect && 0.0 < near < far
    ensures var m := Frustum(t, aspect, near, far);
      m.m12 == 0.0 && m.m13 == 0.0 && m.m14 == 0.0 &&
      m.m21 == 0.0 && m.m23 == 0.0 && m.m24 == 0.0 &&
      m.m31 == 0.0 && m.m32 == 0.0 && m.m34 == -1.0 &&
      m.m41 == 0.0 && m.m42 == 0.0 && m.m44 == 0.0
    ensures var m := Frustum(t, aspect, near, far);
      m.m11 == near / (t * aspect) && m.m22 == -near / t &&
      m.m33 == -far / (far - near) && m.m43 == -far * near / (far - near)
    ensures var m := Frustum(t, aspect, near, far);
      0.0 < m.m11 && m.m22 < 0.0 && m.m33 < 0.0 && m.m43 < 0.0
  {
    MulPositive(t, aspect);
    MulPositive(far, near);
    HalveFraction(near, t * aspect);
    HalveFraction(near, t);
  }

  lemma HalveFraction(n: real, x: real)
    requires 0.0 < x
    ensures 2.0 * n / (x - -x) == n / x
  {
    assert x - -x == 2.0 * x;
  }

  /** A view-space point on the axis at the given depth. */
  function OnAxis(z: real): Vec3 { Vec3(0.0, 0.0, z) }

  /** The projection sends the near plane to NDC depth 0 and the far plane to NDC depth 1. */
  lemma DepthRange(math: Libm, fov: real, aspect: real, near: real, far: real)
    requires FrustumValid(fov, aspect, near, far)
    ensures TransformPoint(Projection(math, fov, aspect, near, far), OnAxis(-near)) == Some(OnAxis(0.0))
    ensures TransformPoint(Projection(math, fov, aspect, near, far), OnAxis(-far)) == Some(OnAxis(1.0))
  {
    HalfHeightPositive(math, fov, near);
    var t := near * math.tan(fov / 2.0);
    assert Projection(math, fov, aspect, near, far) == Frustum(t, aspect, near, far);
    FrustumDepthRange(t, aspect, near, far);
  }

  lemma FrustumDepthRange(t: real, aspect: real, near: real, far: real)
    requires 0.0 < t && 0.0 < aspect && 0.0 < near < far
    ensures TransformPoint(Frustum(t, aspect, near, far), OnAxis(-near)) == Some(OnAxis(0.0))
    ensures TransformPoint(Frustum(t, aspect, near, far), OnAxis(-far)) == Some(OnAxis(1.0))
  {
    FrustumShape(t, aspect, near, far);
    var m := Frustum(t, aspect, near, far);
    NearDepth(near, far);
    FarDepth(near, far);
    assert TransformHomogeneous(m, OnAxis(-near)) == Vec4(0.0, 0.0, 0.0, near);
    assert TransformHomogeneous(m, OnAxis(-far)) == Vec4(0.0, 0.0, far, far);
    assert far / far == 1.0;
  }

  lemma NearDepth(n: real, f: real)
    requires 0.0 < n < f
    ensures (-n) * (-f / (f - n)) + -f * n / (f - n) == 0.0
  {
  }

  lemma FarDepth(n: real, f: real)
    requires 0.0 < n < f
    ensures (-f) * (-f / (f - n)) + -f * n / (f - n) == f
  {
  }

  /** `get_aspect_ratio`: the aspect read back from a projection matrix. */
  function AspectOf(m: Mat4): real
    requires m.m11 != 0.0
  {
    -m.m22 / m.m11
  }

  /** Reading the aspect back from the projection yields the aspect the camera was built with. */
  lemma AspectRoundTrip(math: Libm, fov: real, aspect: real, near: real, far: real)
    requires FrustumValid(fov, aspect, near, far)
    ensures var m := Projection(math, fov, aspect, near, far);
      m.m11 != 0.0 && AspectOf(m) == aspect
  {
    HalfHeightPositive(math, fov, near);
    AspectAlgebra(near, near * math.tan(fov / 2.0), aspect);
  }

  lemma AspectAlgebra(n: real, t: real, a: real)
    requires 0.0 < n && 0.0 < t && 0.0 < a
    ensures 2.0 * n / (t * a - -(t * a)) != 0.0
    ensures -(-2.0 * n / (t - -t)) / (2.0 * n / (t * a - -(t * a))) == a
  {
    MulPositive(t, a);
  }

  /**
   * The matrix of the camera's own test for fov = π/3, aspect 2, near 1 and far 5,
   * where s is √3 and tan(π/6) = 1/√3.
   */
  lemma ProjectionExample(math: Libm, s: real)
    requires 0.0 < s && math.tan(PI / 3.0 / 2.0) * s == 1.0
    ensures var m := Projection(math, PI / 3.0, 2.0, 1.0, 5.0);
      m == Mat4(s / 2.0, 0.0, 0.0, 0.0,
                0.0, -s, 0.0, 0.0,
                0.0, 0.0, -5.0 / 4.0, -1.0,
                0.0, 0.0, -5.0 / 4.0, 0.0)
  {
    var t := math.tan(PI / 3.0 / 2.0);
    assert t == 1.0 / s;
    ExampleEntries(t, s);
  }

  lemma ExampleEntries(t: real, s: real)
    requires 0.0 < s && t * s == 1.0
    ensures 2.0 * 1.0 / (1.0 * t * 2.0 - -(1.0 * t * 2.0)) == s / 2.0
    ensures -2.0 * 1.0 / (1.0 * t - -(1.0 * t)) == -s
  {
    assert t == 1.0 / s;
  }

  /**
   * The rotation part of `get_view_transform`: the basis Gram-Schmidt builds from
   * the direction and the up vector, placed as columns.
   */
  function ViewBasis(math: Libm, direction: Vec3, up: Vec3): (m: Mat4)
    ensures IsAffine(m) && m.m41 == 0.0 && m.m42 == 0.0 && m.m43 == 0.0
  {
    var viewZ := Neg(direction);
    var viewY := Normalize(math, Sub(up, Scale(viewZ, Dot(viewZ, up))));
    var viewX := Normalize(math, Cross(viewY, viewZ));
    Mat4(viewX.x, viewY.x, viewZ.x, 0.0,
         viewX.y, viewY.y, viewZ.y, 0.0,
         viewX.z, viewY.z, viewZ.z, 0.0,
         0.0, 0.0, 0.0, 1.0)
  }

  /** `get_view_transform`: the basis pre-translated by the negated position. */
  function ViewMatrix(math: Libm, position: Vec3, direction: Vec3, up: Vec3): Mat4 {
    PreTranslate(ViewBasis(math, direction, up), Neg(position))
  }

  /** The view transform is affine and sends the camera position to the view-space origin. */
  lemma ViewCentersCamera(math: Libm, position: Vec3, direction: Vec3, up: Vec3)
    ensures IsAffine(ViewMatrix(math, position, direction, up))
    ensures TransformPoint(ViewMatrix(math, position, direction, up), position) == Some(ZERO)
  {
    var basis := ViewBasis(math, direction, up);
    PreTranslateAffine(basis, Neg(position));
    PreTranslateCancels(basis, position);
  }

  /**
   * The view transform depends on the position only through the translation:
   * moving the camera keeps the basis and changes the fourth row alone.
   */
  lemma ViewOfMovedCamera(math: Libm, p: Vec3, q: Vec3, direction: Vec3, up: Vec3)
    ensures var a, b := ViewMatrix(math, p, direction, up), ViewMatrix(math, q, direction, up);
      a.(m41 := 0.0, m42 := 0.0, m43 := 0.0) == b.(m41 := 0.0, m42 := 0.0, m43 := 0.0)
  {
  }

  /** The direction a freshly built camera stores: the normalised offset to the target. */
  function InitialDirection(math: Libm, position: Vec3, lookAt: Vec3): Vec3 {
    Normalize(math, Sub(lookAt, position))
  }

  /**
   * A camera moved by `set_position` has the view transform of a camera built
   * at the new position looking along the same offset.
   */
  lemma MovedCameraMatchesFresh(math: Libm, p: Vec3, q: Vec3, offset: Vec3, up: Vec3)
    ensures ViewMatrix(math, q, InitialDirection(math, p, Add(p, offset)), up)
         == ViewMatrix(math, q, InitialDirection(math, q, Add(q, offset)), up)
  {
    assert Sub(Add(p, offset), p) == offset;
    assert Sub(Add(q, offset), q) == offset;
  }

  /** The first reason `look_at` refuses a target, or None when it accepts it. */
  function LookAtError(math: Libm, position: Vec3, up: Vec3, target: Vec3): (r: Option<CameraError>)
    ensures r == None <==>
      !ApproxEqVec(target, position) && !Colinear(math, Sub(target, position), up)
    ensures ApproxEqVec(target, position) ==> r == Some(TargetTooClose)
    ensures r.Some? ==> r.value in {TargetTooClose, UpColinear}
  {
    if ApproxEqVec(target, position) then Some(TargetTooClose)
    else if Colinear(math, Sub(target, position), up) then Some(UpColinear)
    else None
  }

  /** The camera movements of `CameraControl`. */
  datatype Direction = Up | Down | Left | Right | Forward | Backward

  function Opposite(d: Direction): Direction {
    match d
    case Up => Down
    case Down => Up
    case Left => Right
    case Right => Left
    case Forward => Backward
    case Backward => Forward
  }

  /** The sign of a movement along its view axis. */
  function MoveSign(d: Direction): (r: real)
    ensures r == 1.0 || r == -1.0
    ensures r == 1.0 <==> d in {Backward, Up, Right}
  {
    match d
    case Backward | Up | Right => 1.0
    case Forward | Down | Left => -1.0
  }

  /** The view-space axis a movement runs along. */
  function MoveAxis(d: Direction): (r: Vec3)
    ensures d in {Forward, Backward} <==> r == Vec3(0.0, 0.0, 1.0)
    ensures d in {Left, Right} <==> r == Vec3(1.0, 0.0, 0.0)
    ensures d in {Up, Down} <==> r == Vec3(0.0, 1.0, 0.0)
  {
    match d
    case Backward | Forward => Vec3(0.0, 0.0, 1.0)
    case Left | Right => Vec3(1.0, 0.0, 0.0)
    case Up | Down => Vec3(0.0, 1.0, 0.0)
  }

  /**
   * The world-space offset of one `move_camera` step: the view axis taken back
   * to world space, signed, and scaled by speed times elapsed seconds.
   */
  function Displacement(math: Libm, view: Mat4, d: Direction, speed: real, seconds: real): Vec3 {
    var axis := Scale(TransformVector(math.inverse(view), MoveAxis(d)), MoveSign(d));
    Scale(axis, speed * seconds)
  }

  /** Opposite movements share an axis and cancel each other. */
  lemma OppositeMovesCancel(math: Libm, view: Mat4, d: Direction, speed: real, seconds: real)
    ensures Opposite(Opposite(d)) == d && Opposite(d) != d
    ensures MoveAxis(Opposite(d)) == MoveAxis(d) && MoveSign(Opposite(d)) == -MoveSign(d)
    ensures Add(Displacement(math, view, d, speed, seconds),
                Displacement(math, view, Opposite(d), speed, seconds)) == ZERO
  {
    var v := TransformVector(math.inverse(view), MoveAxis(d));
    OppositeScalesCancel(v, speed * seconds);
  }

  /** Nothing moves when no time has passed or the speed is zero. */
  lemma StillWithoutTime(math: Libm, view: Mat4, d: Direction, speed: real, seconds: real)
    requires speed == 0.0 || seconds == 0.0
    ensures Displacement(math, view, d, speed, seconds) == ZERO
  {
  }

  /**
   * The rotation target of `rotate_camera_to` as the code computes it, with
   * z = −sqrt(1 − |p|) for a projected target p inside the unit disk.
   */
  function ProjectedTargetAsWritten(math: Libm, p: Vec2): Vec3 {
    Vec3(p.x, p.y, -math.sqrt(1.0 - Length2(math, p)))
  }

  /**
   * The intended rotation target: the point of the unit sphere's back half whose
   * projection on the view x-y plane is p, with z = −sqrt(1 − |p|²).
   */
  function ProjectedTarget(math: Libm, p: Vec2): Vec3 {
    Vec3(p.x, p.y, -math.sqrt(1.0 - Sq(Length2(math, p))))
  }

  /** A length inside the unit disk has a square inside it too. */
  lemma SquareWithinDisk(len: real)
    requires 0.0 <= len <= 1.0
    ensures 0.0 <= Sq(len) <= 1.0
  {
    SqSign(len);
    if len < 1.0 {
      SqStrictlyIncreasing(len, 1.0);
    }
  }

  /** The length of a 2D vector is never negative. */
  lemma Length2NonNegative(math: Libm, p: Vec2)
    ensures 0.0 <= Length2(math, p)
  {
    SqSign(p.x);
    SqSign(p.y);
    assert SqrtLaw(math.sqrt, Sq(p.x) + Sq(p.y));
  }

  /** Inside the unit disk, both forms put the target behind the camera plane: z <= 0. */
  lemma TargetInBackHalf(math: Libm, p: Vec2)
    requires Length2(math, p) <= 1.0
    ensures ProjectedTargetAsWritten(math, p).z <= 0.0
    ensures ProjectedTarget(math, p).z <= 0.0
  {
    var len := Length2(math, p);
    Length2NonNegative(math, p);
    SquareWithinDisk(len);
    assert SqrtLaw(math.sqrt, 1.0 - len);
    assert SqrtLaw(math.sqrt, 1.0 - Sq(len));
  }

  /** With an exact square root, the intended target is a unit vector for every p in the disk. */
  lemma ProjectedTargetIsUnit(math: Libm, p: Vec2)
    requires ExactSqrt(math) && Length2(math, p) <= 1.0
    ensures SquareLength(ProjectedTarget(math, p)) == 1.0
  {
    var len := Length2(math, p);
    SqSign(p.x);
    SqSign(p.y);
    assert SqrtExactAt(math.sqrt, Sq(p.x) + Sq(p.y));
    assert Sq(len) == Sq(p.x) + Sq(p.y);
    Length2NonNegative(math, p);
    SquareWithinDisk(len);
    var s := math.sqrt(1.0 - Sq(len));
    assert SqrtExactAt(math.sqrt, 1.0 - Sq(len));
    assert Sq(s) == 1.0 - Sq(len);
    SqNeg(s);
  }

  /**
   * The target as written is not a unit vector: for p = (0.6, 0) its squared
   * length is 0.36 + 0.4 = 0.76.
   */
  lemma ProjectedTargetAsWrittenNotUnit(math: Libm)
    requires ExactSqrt(math)
    ensures var v := ProjectedTargetAsWritten(math, Vec2(0.6, 0.0));
      SquareLength(v) == 0.76 && SquareLength(v) != 1.0
  {
    var p := Vec2(0.6, 0.0);
    assert Sq(p.x) + Sq(p.y) == Sq(0.6);
    SqrtOfSquare(math, 0.6);
    assert Length2(math, p) == 0.6;
    var s := math.sqrt(1.0 - 0.6);
    assert SqrtExactAt(math.sqrt, 1.0 - 0.6);
    assert Sq(s) == 0.4;
    SqNeg(s);
  }

  /**
   * The scene camera. `look_at` and `set_position` overwrite its fields in place;
   * the parameters it was built from are kept as ghost state for the proofs.
   */
  class Camera {
    /** The floating-point library the camera's arithmetic runs on. */
    const math: Libm
    var projection: Mat4
    var position: Vec3
    /** A normalised vector from the position towards the look-at target. */
    var direction: Vec3
    var up: Vec3

    ghost const fov: real
    ghost const aspect: real
    ghost const near: real
    ghost const far: real

    ghost predicate Valid()
      reads this
    {
      FrustumValid(fov, aspect, near, far) &&
      projection == Projection(math, fov, aspect, near, far)
    }

    constructor Build(math: Libm, fov: real, aspect: real, near: real, far: real,
                      position: Vec3, direction: Vec3, up: Vec3)
      requires FrustumValid(fov, aspect, near, far)
      ensures Valid()
      ensures this.math == math && this.fov == fov && this.aspect == aspect
      ensures this.near == near && this.far == far
      ensures this.position == position && this.direction == direction && this.up == up
    {
      this.math := math;
      this.fov := fov;
      this.aspect := aspect;
      this.near := near;
      this.far := far;
      this.projection := Projection(math, fov, aspect, near, far);
      this.position := position;
      this.direction := direction;
      this.up := up;
    }

    /** `Camera::new`: validates the parameters in order, then builds the camera. */
    static method New(math: Libm, fov: real, aspect: real, near: real, far: real,
                      position: Vec3, lookAt: Vec3, up: Vec3) returns (r: Result<Camera, CameraError>)
      ensures r.Err? <==> ConfigurationError(math, fov, aspect, near, far, position, lookAt, up).Some?
      ensures r.Err? ==> Some(r.error) == ConfigurationError(math, fov, aspect, near, far, position, lookAt, up)
      ensures r.Ok? ==> fresh(r.value) && r.value.Valid() && r.value.math == math
      ensures r.Ok? ==> r.value.fov == fov && r.value.aspect == aspect
      ensures r.Ok? ==> r.value.near == near && r.value.far == far
      ensures r.Ok? ==> r.value.position == position && r.value.up == up
      ensures r.Ok? ==> r.value.direction == InitialDirection(math, position, lookAt)
    {
      var err := ConfigurationError(math, fov, aspect, near, far, position, lookAt, up);
      if err.Some? {
        return Err(err.value);
      }
      var camera := new Camera.Build(math, fov, aspect, near, far, position,
                                     InitialDirection(math, position, lookAt), up);
      return Ok(camera);
    }

    /** `look_at`: re-aims the camera at a target, or reports why it cannot. */
    method LookAt(target: Vec3) returns (r: Outcome<CameraError>)
      requires Valid()
      modifies this
      ensures Valid()
      ensures r.Fail? <==> LookAtError(math, old(position), old(up), target).Some?
      ensures r.Fail? ==> Some(r.error) == LookAtError(math, old(position), old(up), target)
      ensures r.Fail? ==> direction == old(direction)
      ensures r.Pass? ==> direction == Normalize(math, Sub(target, old(position)))
      ensures position == old(position) && up == old(up) && projection == old(projection)
    {
      var err := LookAtError(math, position, up, target);
      if err.Some? {
        return Fail(err.value);
      }
      direction := Normalize(math, Sub(target, position));
      return Pass;
    }

    /** `set_position`: moves the camera without turning it. */
    method SetPosition(p: Vec3)
      requires Valid()
      modifies this
      ensures Valid()
      ensures position == p
      ensures direction == old(direction) && up == old(up) && projection == old(projection)
    {
      position := p;
    }

    /**
     * `get_view_transform`: the world-to-view transform of the camera's
     * current pose. It is affine and takes the camera's position to the
     * view-space origin.
     */
    function View(): (r: Mat4)
      reads this
      ensures IsAffine(r) && TransformPoint(r, position) == Some(ZERO)
    {
      ViewCentersCamera(math, position, direction, up);
      ViewMatrix(math, position, direction, up)
    }

    /** `get_aspect_ratio`: always the aspect the camera was built with. */
    function AspectRatio(): (r: real)
      requires Valid()
      reads this
      ensures r == aspect
    {
      AspectRoundTrip(math, fov, aspect, near, far);
      AspectOf(projection)
    }
  }
}
