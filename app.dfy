/**
 * The viewer application of `src/main.rs`: its UI state, the camera it owns
 * and rebuilds when the window's aspect ratio changes, the keyboard and mouse
 * controls that move and turn that camera, and the one-second window of frame
 * times behind the FPS counter. The `CameraControl` default methods of
 * `src/scene/camera.rs` live here, on their one implementor.
 */
module App {
  import opened Wrappers
  import opened Geometry
  import opened Cameras

  /** The camera the application builds: 45° field of view, depth range [1, 100], y up. */
  const FOV: real := PI / 4.0
  const NEAR: real := 1.0
  const FAR: real := 100.0
  const UP: Vec3 := Vec3(0.0, 1.0, 0.0)
  /** Where the first camera stands; it looks at the origin. */
  const INITIAL_POSITION: Vec3 := Vec3(0.0, 0.0, 5.0)
  /** How far the rotation target moves per logical pixel of mouse motion. */
  const ROTATION_SPEED: real := 0.001

  /** The keys that move the camera; every other key is ignored. */
  datatype Key = W | S | A | D | Z | X

  /** Which direction each movement key moves the camera, in the order they are handled. */
  const KEY_BINDINGS: seq<(Key, Direction)> :=
    [(W, Forward), (S, Backward), (A, Left), (D, Right), (Z, Up), (X, Down)]

  datatype MouseButton = LeftButton | RightButton | MiddleButton | OtherButton(code: nat)
  datatype ElementState = Pressed | Released

  /** The part of a camera that the controls move: where it is and where it looks. */
  datatype Pose = Pose(position: Vec3, direction: Vec3, up: Vec3)

  /** The window's aspect ratio, `width / height`. */
  function WindowAspect(width: nat, height: nat): real
    requires height > 0
  {
    width as real / height as real
  }

  /** The pose of a camera built with the application's parameters, or why it cannot be. */
  function Build(math: Libm, aspect: real, position: Vec3, lookAt: Vec3): (r: Result<Pose, CameraError>)
    ensures r.Err? <==> ConfigurationError(math, FOV, aspect, NEAR, FAR, position, lookAt, UP).Some?
    ensures r.Ok? ==> r.value == Pose(position, InitialDirection(math, position, lookAt), UP)
  {
    var err := ConfigurationError(math, FOV, aspect, NEAR, FAR, position, lookAt, UP);
    if err.Some? then Err(err.value) else Ok(Pose(position, InitialDirection(math, position, lookAt), UP))
  }

  /**
   * What `get_camera_mut` leaves behind: with no camera, a new one at the
   * initial position looking at the origin; with a camera whose aspect ratio
   * no longer approximately matches the window, a new one at the same place
   * looking the same way; otherwise the camera as it is.
   */
  function PrepareCamera(math: Libm, current: Option<Pose>, currentAspect: real, aspect: real)
    : (r: Result<Pose, CameraError>)
    ensures current.None? && r.Ok? ==> r.value.position == INITIAL_POSITION
    ensures current.Some? && r.Ok? ==> r.value.position == current.value.position
    ensures current.Some? && ApproxEq(currentAspect, aspect) ==> r == Ok(current.value)
    ensures r.Err? ==> current.None? || !ApproxEq(currentAspect, aspect)
  {
    if current.None? then Build(math, aspect, INITIAL_POSITION, ZERO)
    else if !ApproxEq(currentAspect, aspect) then
      Build(math, aspect, current.value.position, Add(current.value.position, current.value.direction))
    else Ok(current.value)
  }

  /** The up axis is at a right angle to any non-zero vector along z. */
  lemma UpNotColinearWithDepth(math: Libm, z: real)
    requires z != 0.0
    ensures !Colinear(math, UP, Vec3(0.0, 0.0, z))
  {
    var c := Cross(UP, Vec3(0.0, 0.0, z));
    assert c == Vec3(z, 0.0, 0.0);
    SqSign(z);
    assert SquareLength(c) == Sq(z) + Sq(0.0) + Sq(0.0);
    assert SqrtLaw(math.sqrt, SquareLength(c));
    assert Atan2Law(math.atan2, Length(math, c), Dot(UP, Vec3(0.0, 0.0, z)));
  }

  /**
   * The view from the initial position towards the origin runs along −z, at a
   * right angle to the up axis, so the two are never colinear.
   */
  lemma InitialViewNotColinear(math: Libm)
    ensures InitialDirection(math, INITIAL_POSITION, ZERO).z < 0.0
    ensures !Colinear(math, UP, InitialDirection(math, INITIAL_POSITION, ZERO))
  {
    assert Sub(ZERO, INITIAL_POSITION) == Vec3(0.0, 0.0, -5.0);
    NormalizeAlongNegativeZ(math, -5.0);
    var d := InitialDirection(math, INITIAL_POSITION, ZERO);
    assert d == Vec3(0.0, 0.0, d.z);
    UpNotColinearWithDepth(math, d.z);
  }

  /**
   * The first camera can be built exactly when the window is not too narrow;
   * a window of width 0 always fails.
   */
  lemma InitialCameraBuilds(math: Libm, aspect: real)
    ensures PrepareCamera(math, None, 0.0, aspect).Ok? <==> EPSILON <= aspect
    ensures aspect < EPSILON ==> PrepareCamera(math, None, 0.0, aspect) == Err(AspectTooSmall)
  {
    assert !ApproxEqVec(INITIAL_POSITION, ZERO);
    assert !ApproxEqVec(UP, ZERO);
    InitialViewNotColinear(math);
  }

  /**
   * A rebuilt camera looks along the old viewing direction: the target it is
   * aimed at is its position plus that direction.
   */
  lemma RebuildKeepsDirection(math: Libm, pose: Pose, currentAspect: real, aspect: real)
    requires !ApproxEq(currentAspect, aspect)
    requires PrepareCamera(math, Some(pose), currentAspect, aspect).Ok?
    ensures PrepareCamera(math, Some(pose), currentAspect, aspect).value.direction == Normalize(math, pose.direction)
    ensures PrepareCamera(math, Some(pose), currentAspect, aspect).value.up == UP
  {
    assert Sub(Add(pose.position, pose.direction), pose.position) == pose.direction;
  }

  /** One `move_camera` step applied to a pose: only the position changes. */
  function Step(math: Libm, pose: Pose, d: Direction, speed: real, seconds: real): Pose {
    var view := ViewMatrix(math, pose.position, pose.direction, pose.up);
    pose.(position := Add(pose.position, Displacement(math, view, d, speed, seconds)))
  }

  /** The pose after the moves `ds`, taken in order. */
  function MovedAlong(math: Libm, pose: Pose, ds: seq<Direction>, speed: real, seconds: real): (r: Pose)
    ensures r.direction == pose.direction && r.up == pose.up
    decreases |ds|
  {
    if ds == [] then pose
    else Step(math, MovedAlong(math, pose, ds[..|ds| - 1], speed, seconds), ds[|ds| - 1], speed, seconds)
  }

  lemma MovedAlongSnoc(math: Libm, pose: Pose, ds: seq<Direction>, d: Direction, speed: real, seconds: real)
    ensures MovedAlong(math, pose, ds + [d], speed, seconds) == Step(math, MovedAlong(math, pose, ds, speed, seconds), d, speed, seconds)
  {
    assert (ds + [d])[..|ds|] == ds;
  }

  /** However many keys are held, nothing moves in a frame that took no time. */
  lemma {:induction false} StillInZeroTime(math: Libm, pose: Pose, ds: seq<Direction>, speed: real)
    ensures MovedAlong(math, pose, ds, speed, 0.0) == pose
    decreases |ds|
  {
    if ds != [] {
      var before := MovedAlong(math, pose, ds[..|ds| - 1], speed, 0.0);
      StillInZeroTime(math, pose, ds[..|ds| - 1], speed);
      StillWithoutTime(math, ViewMatrix(math, before.position, before.direction, before.up),
                       ds[|ds| - 1], speed, 0.0);
    }
  }

  /** The directions of the held keys among `bindings`, in the order of `bindings`. */
  function HeldMoves(keys: set<Key>, bindings: seq<(Key, Direction)>): seq<Direction>
    decreases |bindings|
  {
    if bindings == [] then []
    else
      var last := bindings[|bindings| - 1];
      HeldMoves(keys, bindings[..|bindings| - 1]) + if last.0 in keys then [last.1] else []
  }

  /** Taking one more binding adds its direction when its key is held. */
  lemma HeldMovesSnoc(keys: set<Key>, bindings: seq<(Key, Direction)>, k: nat)
    requires k < |bindings|
    ensures HeldMoves(keys, bindings[..k + 1]) ==
              HeldMoves(keys, bindings[..k]) + if bindings[k].0 in keys then [bindings[k].1] else []
  {
    assert bindings[..k + 1][..k] == bindings[..k];
  }

  /** A prefix of the bindings yields no more moves than all of them. */
  lemma {:induction false} HeldMovesPrefix(keys: set<Key>, bindings: seq<(Key, Direction)>, k: nat)
    requires k <= |bindings|
    ensures |HeldMoves(keys, bindings[..k])| <= |HeldMoves(keys, bindings)|
    decreases |bindings|
  {
    assert bindings[..|bindings|] == bindings;
    if k < |bindings| {
      var init := bindings[..|bindings| - 1];
      assert init[..k] == bindings[..k];
      HeldMovesPrefix(keys, init, k);
    }
  }

  /** The moves one frame makes for the held keys. */
  function PressedMoves(keys: set<Key>): seq<Direction> {
    HeldMoves(keys, KEY_BINDINGS)
  }

  /** The key bound to each direction. */
  function KeyFor(d: Direction): Key {
    match d
    case Forward => W
    case Backward => S
    case Left => A
    case Right => D
    case Up => Z
    case Down => X
  }

  /** The position of each direction's binding in `KEY_BINDINGS`. */
  function Rank(d: Direction): (r: nat)
    ensures r < |KEY_BINDINGS| && KEY_BINDINGS[r] == (KeyFor(d), d)
  {
    match d
    case Forward => 0
    case Backward => 1
    case Left => 2
    case Right => 3
    case Up => 4
    case Down => 5
  }

  /**
   * The first `k` bindings move in exactly the directions among them whose key
   * is held, each once, in the order of the bindings.
   */
  lemma {:induction false} HeldMovesInOrder(keys: set<Key>, k: nat)
    requires k <= |KEY_BINDINGS|
    ensures forall d :: d in HeldMoves(keys, KEY_BINDINGS[..k]) <==> Rank(d) < k && KeyFor(d) in keys
    ensures var m := HeldMoves(keys, KEY_BINDINGS[..k]);
            forall i, j | 0 <= i < j < |m| :: Rank(m[i]) < Rank(m[j])
  {
    if k > 0 {
      HeldMovesInOrder(keys, k - 1);
      HeldMovesSnoc(keys, KEY_BINDINGS, k - 1);
      var d := KEY_BINDINGS[k - 1].1;
      assert Rank(d) == k - 1 by {
        assert d == [Forward, Backward, Left, Right, Up, Down][k - 1];
      }
      forall e: Direction
        ensures e in HeldMoves(keys, KEY_BINDINGS[..k]) <==> Rank(e) < k && KeyFor(e) in keys
      {
        if Rank(e) == k - 1 {
          assert KEY_BINDINGS[Rank(e)] == (KeyFor(e), e);
        }
      }
    }
  }

  /**
   * A frame moves the camera once for every held movement key, and in the
   * order W, S, A, D, Z, X: forward, backward, left, right, up, down.
   */
  lemma PressedMovesInOrder(keys: set<Key>)
    ensures forall d :: d in PressedMoves(keys) <==> KeyFor(d) in keys
    ensures forall i, j | 0 <= i < j < |PressedMoves(keys)| :: Rank(PressedMoves(keys)[i]) < Rank(PressedMoves(keys)[j])
  {
    HeldMovesInOrder(keys, |KEY_BINDINGS|);
    assert KEY_BINDINGS[..|KEY_BINDINGS|] == KEY_BINDINGS;
    assert HeldMoves(keys, KEY_BINDINGS[..|KEY_BINDINGS|]) == PressedMoves(keys);
  }

  /** The frame times still inside the one-second window that ends at `now`. */
  function Recent(times: seq<real>, now: real): seq<real>
    decreases |times|
  {
    if times == [] then []
    else
      var last := times[|times| - 1];
      Recent(times[..|times| - 1], now) + if now - last < 1.0 then [last] else []
  }

  /** A frame time is kept exactly when it lies less than one second before `now`. */
  lemma {:induction false} RecentKeepsLastSecond(times: seq<real>, now: real)
    ensures forall t :: t in Recent(times, now) <==> t in times && now - t < 1.0
    ensures |Recent(times, now)| <= |times|
    decreases |times|
  {
    if times != [] {
      var init := times[..|times| - 1];
      RecentKeepsLastSecond(init, now);
      assert times == init + [times[|times| - 1]];
    }
  }

  /** The rotation controller's mouse step: the motion scaled down, y flipped, and clamped to length 1. */
  function MouseDelta(math: Libm, dx: real, dy: real): Vec2 {
    var delta := Vec2(dx * ROTATION_SPEED, -dy * ROTATION_SPEED);
    if Length2(math, delta) > 1.0 then Normalize2(math, delta) else delta
  }

  lemma SqOfQuotient(a: real, l: real)
    requires l != 0.0
    ensures Sq(l) != 0.0 && Sq(a / l) == Sq(a) / Sq(l)
  {
    SqSign(l);
  }

  lemma QuotientsSumToOne(a: real, b: real, l: real)
    requires l == a + b && l != 0.0
    ensures a / l + b / l == 1.0
  {
  }

  /**
   * With exact square roots the mouse step always lies in the unit disk, so
   * the rotation it asks for is never refused as outside it.
   */
  lemma MouseDeltaInDisk(math: Libm, dx: real, dy: real)
    requires ExactSqrt(math)
    ensures Length2(math, MouseDelta(math, dx, dy)) <= 1.0
  {
    var delta := Vec2(dx * ROTATION_SPEED, -dy * ROTATION_SPEED);
    var len := Length2(math, delta);
    if len > 1.0 {
      var s := Sq(delta.x) + Sq(delta.y);
      SqSign(delta.x);
      SqSign(delta.y);
      assert SqrtExactAt(math.sqrt, s);
      assert Sq(len) == s;
      SqOfQuotient(delta.x, len);
      SqOfQuotient(delta.y, len);
      QuotientsSumToOne(Sq(delta.x), Sq(delta.y), Sq(len));
      SqrtOfSquare(math, 1.0);
      assert Sq(1.0) == 1.0;
    }
  }

  lemma AffineMapsPoints(m: Mat4, p: Vec3)
    requires IsAffine(m)
    ensures TransformPoint(m, p).Some?
  {
  }

  /**
   * The world-space point `rotate_camera_to` aims at: the target on the unit
   * sphere behind the camera, taken out of view space by the inverse view
   * transform.
   */
  function RotationTarget(math: Libm, pose: Pose, p: Vec2): Vec3 {
    var view := ViewMatrix(math, pose.position, pose.direction, pose.up);
    ViewCentersCamera(math, pose.position, pose.direction, pose.up);
    assert InverseLaw(math.inverse, view);
    AffineMapsPoints(math.inverse(view), ProjectedTarget(math, p));
    TransformPoint(math.inverse(view), ProjectedTarget(math, p)).value
  }

  /** The application's state outside its camera. */
  datatype UiState = UiState(
    middleHeld: bool, cursorLock: Option<Vec2>, cursor: Vec2,
    colorPickerVisible: bool, color: Vec3, recentFrameTimes: seq<real>, cameraSpeed: real)

  class Application {
    /** The floating-point library the camera arithmetic runs on. */
    const math: Libm
    var mouseMiddleButtonHeld: bool
    /** Where the cursor is held while the middle button is down. */
    var cursorLockPosition: Option<Vec2>
    var cursorPosition: Vec2
    var colorPickerVisible: bool
    var color: Vec3
    var recentFrameTimes: seq<real>
    var camera: Option<Camera>
    /** Units per second. */
    var cameraSpeed: real

    ghost function Footprint(): set<object>
      reads this
    {
      if camera.Some? then {camera.value} else {}
    }

    /**
     * A camera, once there, is well formed, runs on the application's
     * library and has the application's field of view and clipping planes.
     */
    ghost predicate Valid()
      reads this, Footprint()
    {
      camera.Some? ==>
        && camera.value.Valid() && camera.value.math == math
        && camera.value.fov == FOV && camera.value.near == NEAR && camera.value.far == FAR
    }

    function Ui(): UiState
      reads this
    {
      UiState(mouseMiddleButtonHeld, cursorLockPosition, cursorPosition,
              colorPickerVisible, color, recentFrameTimes, cameraSpeed)
    }

    function CurrentPose(): Option<Pose>
      reads this, Footprint()
    {
      if camera.Some? then Some(Pose(camera.value.position, camera.value.direction, camera.value.up)) else None
    }

    /**
     * The camera `get_camera_mut` would hand out for a window of this aspect
     * ratio. The camera's aspect ratio is the one it was built with
     * (`Camera.AspectRatio`).
     */
    ghost function Prepared(aspect: real): Result<Pose, CameraError>
      reads this, Footprint()
    {
      PrepareCamera(math, CurrentPose(), if camera.Some? then camera.value.aspect else 0.0, aspect)
    }

    /**
     * The camera exists and fits a window of this aspect ratio, so
     * `get_camera_mut` hands it out unchanged.
     */
    ghost predicate Fits(aspect: real)
      reads this, Footprint()
    {
      camera.Some? && ApproxEq(camera.value.aspect, aspect)
    }

    /** The number the FPS counter shows. */
    function Fps(): nat
      reads this
    {
      |recentFrameTimes|
    }

    /** `Application::new`: no camera yet, nothing held, a red colour and speed 1. */
    constructor (math: Libm)
      ensures Valid() && this.math == math && camera == None
      ensures Ui() == UiState(false, None, Vec2(0.0, 0.0), false, Vec3(1.0, 0.0, 0.0), [], 1.0)
    {
      this.math := math;
      mouseMiddleButtonHeld := false;
      cursorLockPosition := None;
      cursorPosition := Vec2(0.0, 0.0);
      colorPickerVisible := false;
      color := Vec3(1.0, 0.0, 0.0);
      recentFrameTimes := [];
      camera := None;
      cameraSpeed := 1.0;
    }

    /**
     * `get_camera_mut`: the camera, built or rebuilt for the window's aspect
     * ratio first when needed. A failed build leaves the application without
     * a camera. A camera handed out fits the window, so asking again for the
     * same window keeps it.
     */
    method GetCameraMut(width: nat, height: nat) returns (r: Result<Camera, CameraError>)
      requires Valid() && height > 0
      modifies this
      ensures Valid() && Ui() == old(Ui())
      ensures r.Ok? <==> old(Prepared(WindowAspect(width, height))).Ok?
      ensures r.Err? ==> camera == None && r.error == old(Prepared(WindowAspect(width, height))).error
      ensures r.Ok? ==> camera == Some(r.value) && CurrentPose() == Some(old(Prepared(WindowAspect(width, height))).value)
      ensures r.Ok? ==> Fits(WindowAspect(width, height))
      ensures r.Ok? ==> fresh(r.value) || r.value in old(Footprint())
    {
      var aspect := WindowAspect(width, height);
      var current := camera;
      camera := None;
      var c: Camera;
      if current.None? {
        var built := Camera.New(math, FOV, aspect, NEAR, FAR, INITIAL_POSITION, ZERO, UP);
        if built.Err? {
          return Err(built.error);
        }
        c := built.value;
      } else if !ApproxEq(current.value.AspectRatio(), aspect) {
        var position := current.value.position;
        var built := Camera.New(math, FOV, aspect, NEAR, FAR, position, Add(position, current.value.direction), UP);
        if built.Err? {
          return Err(built.error);
        }
        c := built.value;
      } else {
        c := current.value;
      }
      camera := Some(c);
      return Ok(c);
    }

    /**
     * `move_camera`: one step of `cameraSpeed * seconds` along a view axis,
     * taken back to world space; the camera keeps its orientation.
     */
    method MoveCamera(direction: Direction, seconds: real, width: nat, height: nat) returns (r: Outcome<CameraError>)
      requires Valid() && height > 0
      modifies this, Footprint()
      ensures Valid() && Ui() == old(Ui())
      ensures r.Fail? <==> old(Prepared(WindowAspect(width, height))).Err?
      ensures r.Fail? ==> camera == None && r.error == old(Prepared(WindowAspect(width, height))).error
      ensures r.Pass? ==> CurrentPose() == Some(Step(math, old(Prepared(WindowAspect(width, height))).value,
                                                     direction, cameraSpeed, seconds))
      ensures r.Pass? ==> Fits(WindowAspect(width, height))
      ensures camera.Some? ==> fresh(camera.value) || camera.value in old(Footprint())
    {
      var speed := cameraSpeed;
      var got := GetCameraMut(width, height);
      if got.Err? {
        return Fail(got.error);
      }
      var c := got.value;
      var next := Step(math, Pose(c.position, c.direction, c.up), direction, speed, seconds);
      c.SetPosition(next.position);
      return Pass;
    }

    /**
     * `rotate_camera_to`: aims the camera at the point of the unit sphere
     * behind it whose view-space projection is `projected`. A point outside
     * the unit disk is refused before the camera is touched.
     */
    method RotateCameraTo(projected: Vec2, width: nat, height: nat) returns (r: Outcome<CameraError>)
      requires Valid() && height > 0
      modifies this, Footprint()
      ensures Valid() && Ui() == old(Ui())
      ensures Length2(math, projected) > 1.0 ==>
                r == Fail(OutsideUnitDisk) && camera == old(camera) && CurrentPose() == old(CurrentPose())
      ensures Length2(math, projected) <= 1.0 && old(Prepared(WindowAspect(width, height))).Err? ==>
                r == Fail(old(Prepared(WindowAspect(width, height))).error) && camera == None
      ensures Length2(math, projected) <= 1.0 && old(Prepared(WindowAspect(width, height))).Ok? ==>
                var pose := old(Prepared(WindowAspect(width, height))).value;
                var target := RotationTarget(math, pose, projected);
                && (r.Fail? <==> LookAtError(math, pose.position, pose.up, target).Some?)
                && (r.Fail? ==> Some(r.error) == LookAtError(math, pose.position, pose.up, target)
                                && CurrentPose() == Some(pose))
                && (r.Pass? ==> CurrentPose() == Some(pose.(direction := Normalize(math, Sub(target, pose.position)))))
                && Fits(WindowAspect(width, height))
      ensures camera.Some? ==> fresh(camera.value) || camera.value in old(Footprint())
    {
      if Length2(math, projected) > 1.0 {
        return Fail(OutsideUnitDisk);
      }
      var got := GetCameraMut(width, height);
      if got.Err? {
        return Fail(got.error);
      }
      var c := got.value;
      var target := RotationTarget(math, Pose(c.position, c.direction, c.up), projected);
      r := c.LookAt(target);
    }

    /**
     * The state of the camera after some of a frame's moves, `done`, starting
     * from a window whose camera `get_camera_mut` would prepare as `start`:
     * untouched before the first move, moved along `done` after it.
     */
    ghost predicate Tracks(aspect: real, start: Result<Pose, CameraError>, done: seq<Direction>,
                           speed: real, seconds: real, initial: Option<Camera>)
      reads this, Footprint()
    {
      if done == [] then Prepared(aspect) == start && camera == initial
      else start.Ok? && Fits(aspect) && CurrentPose() == Some(MovedAlong(math, start.value, done, speed, seconds))
    }

    /** One iteration of the key loop: moves the camera when the key is held. */
    method MoveIfHeld(held: bool, direction: Direction, seconds: real, width: nat, height: nat,
                      ghost start: Result<Pose, CameraError>, ghost done: seq<Direction>, ghost initial: Option<Camera>)
      returns (r: Outcome<CameraError>)
      requires Valid() && height > 0
      requires Tracks(WindowAspect(width, height), start, done, cameraSpeed, seconds, initial)
      modifies this, Footprint()
      ensures Valid() && Ui() == old(Ui())
      ensures r.Fail? <==> held && done == [] && start.Err?
      ensures r.Fail? ==> camera == None && r.error == start.error
      ensures r.Pass? ==> Tracks(WindowAspect(width, height), start, done + if held then [direction] else [],
                                 cameraSpeed, seconds, initial)
      ensures !held ==> camera == old(camera) && unchanged(Footprint())
      ensures camera.Some? ==> fresh(camera.value) || camera.value in old(Footprint())
    {
      if !held {
        assert done + [] == done;
        return Pass;
      }
      r := MoveCamera(direction, seconds, width, height);
      if r.Pass? {
        MovedAlongSnoc(math, start.value, done, direction, cameraSpeed, seconds);
      }
    }

    /**
     * `update_camera_from_key_state`: one move per held movement key, in the
     * order W, S, A, D, Z, X. Only the first move can fail, because a camera
     * once handed out fits the window; then no move is made.
     */
    method UpdateCameraFromKeyState(keys: set<Key>, seconds: real, width: nat, height: nat)
      returns (r: Outcome<CameraError>)
      requires Valid() && height > 0
      modifies this, Footprint()
      ensures Valid() && Ui() == old(Ui())
      ensures PressedMoves(keys) == [] ==> r.Pass? && camera == old(camera) && CurrentPose() == old(CurrentPose())
      ensures r.Fail? <==> PressedMoves(keys) != [] && old(Prepared(WindowAspect(width, height))).Err?
      ensures r.Fail? ==> camera == None && r.error == old(Prepared(WindowAspect(width, height))).error
      ensures r.Pass? && PressedMoves(keys) != [] ==>
                CurrentPose() == Some(MovedAlong(math, old(Prepared(WindowAspect(width, height))).value,
                                                 PressedMoves(keys), cameraSpeed, seconds))
      ensures camera.Some? ==> fresh(camera.value) || camera.value in old(Footprint())
    {
      ghost var start := Prepared(WindowAspect(width, height));
      ghost var initial := camera;
      for i := 0 to |KEY_BINDINGS|
        invariant Valid() && Ui() == old(Ui())
        invariant camera.Some? ==> fresh(camera.value) || camera.value in old(Footprint())
        invariant Tracks(WindowAspect(width, height), start, HeldMoves(keys, KEY_BINDINGS[..i]), cameraSpeed, seconds, initial)
        invariant HeldMoves(keys, KEY_BINDINGS[..i]) == [] ==> unchanged(Footprint())
      {
        var binding := KEY_BINDINGS[i];
        HeldMovesSnoc(keys, KEY_BINDINGS, i);
        r := MoveIfHeld(binding.0 in keys, binding.1, seconds, width, height, start, HeldMoves(keys, KEY_BINDINGS[..i]), initial);
        if r.Fail? {
          HeldMovesPrefix(keys, KEY_BINDINGS, i + 1);
          return;
        }
      }
      assert KEY_BINDINGS[..|KEY_BINDINGS|] == KEY_BINDINGS;
      return Pass;
    }

    /**
     * `on_mouse_button`: pressing the middle button holds the cursor where it
     * is, releasing it lets go; other buttons change nothing.
     */
    method OnMouseButton(button: MouseButton, state: ElementState)
      modifies this
      ensures camera == old(camera)
      ensures button == MiddleButton && state == Pressed ==>
                Ui() == old(Ui()).(middleHeld := true, cursorLock := Some(old(cursorPosition)))
      ensures button == MiddleButton && state == Released ==>
                Ui() == old(Ui()).(middleHeld := false, cursorLock := None)
      ensures button != MiddleButton ==> Ui() == old(Ui())
    {
      if button == MiddleButton {
        if state == Pressed {
          mouseMiddleButtonHeld := true;
          cursorLockPosition := Some(cursorPosition);
        } else {
          mouseMiddleButtonHeld := false;
          cursorLockPosition := None;
        }
      }
    }

    /**
     * `on_mouse_move`: while the middle button is held, turns the camera by
     * the clamped mouse step; otherwise changes nothing. The step lies in the
     * unit disk, so with exact square roots the rotation is never refused as
     * outside it.
     */
    method OnMouseMove(dx: real, dy: real, width: nat, height: nat) returns (r: Outcome<CameraError>)
      requires Valid() && height > 0
      modifies this, Footprint()
      ensures Valid() && Ui() == old(Ui())
      ensures !old(mouseMiddleButtonHeld) ==> r.Pass? && camera == old(camera) && CurrentPose() == old(CurrentPose())
      ensures ExactSqrt(math) ==> r != Fail(OutsideUnitDisk)
      ensures old(mouseMiddleButtonHeld) && Length2(math, MouseDelta(math, dx, dy)) > 1.0 ==>
                r == Fail(OutsideUnitDisk) && camera == old(camera) && CurrentPose() == old(CurrentPose())
      ensures old(mouseMiddleButtonHeld) && Length2(math, MouseDelta(math, dx, dy)) <= 1.0 &&
              old(Prepared(WindowAspect(width, height))).Err? ==>
                r == Fail(old(Prepared(WindowAspect(width, height))).error) && camera == None
      ensures old(mouseMiddleButtonHeld) && Length2(math, MouseDelta(math, dx, dy)) <= 1.0 &&
              old(Prepared(WindowAspect(width, height))).Ok? ==>
                var pose := old(Prepared(WindowAspect(width, height))).value;
                var target := RotationTarget(math, pose, MouseDelta(math, dx, dy));
                && (r.Fail? <==> LookAtError(math, pose.position, pose.up, target).Some?)
                && (r.Fail? ==> Some(r.error) == LookAtError(math, pose.position, pose.up, target)
                                && CurrentPose() == Some(pose))
                && (r.Pass? ==> CurrentPose() == Some(pose.(direction := Normalize(math, Sub(target, pose.position)))))
                && Fits(WindowAspect(width, height))
      ensures camera.Some? ==> fresh(camera.value) || camera.value in old(Footprint())
    {
      if !mouseMiddleButtonHeld {
        return Pass;
      }
      var delta := MouseDelta(math, dx, dy);
      r := RotateCameraTo(delta, width, height);
      if ExactSqrt(math) {
        MouseDeltaInDisk(math, dx, dy);
      }
    }

    /** The frame-time bookkeeping of `update_ui`: record `now`, keep the last second. */
    method RecordFrame(now: real)
      modifies this
      ensures camera == old(camera)
      ensures Ui() == old(Ui()).(recentFrameTimes := Recent(old(recentFrameTimes) + [now], now))
      ensures now in recentFrameTimes && Fps() >= 1
      ensures forall t :: t in recentFrameTimes ==> now - t < 1.0
    {
      var times := recentFrameTimes + [now];
      var kept: seq<real> := [];
      for i := 0 to |times|
        invariant kept == Recent(times[..i], now)
      {
        assert times[..i + 1][..i] == times[..i];
        if now - times[i] < 1.0 {
          kept := kept + [times[i]];
        }
      }
      assert times[..|times|] == times;
      recentFrameTimes := kept;
      RecentKeepsLastSecond(times, now);
    }

    /**
     * `update_ui` without the widgets: records the frame, moves the camera for
     * the held keys, then takes the cursor position. A failed move stops the
     * update before the cursor is taken.
     */
    method UpdateUi(now: real, keys: set<Key>, seconds: real, mouse: Vec2, width: nat, height: nat)
      returns (r: Outcome<CameraError>)
      requires Valid() && height > 0
      modifies this, Footprint()
      ensures Valid()
      ensures Ui() == old(Ui()).(recentFrameTimes := Recent(old(recentFrameTimes) + [now], now),
                                 cursor := if r.Pass? then mouse else old(cursorPosition))
      ensures r.Fail? <==> PressedMoves(keys) != [] && old(Prepared(WindowAspect(width, height))).Err?
      ensures r.Fail? ==> camera == None && r.error == old(Prepared(WindowAspect(width, height))).error
      ensures r.Pass? && PressedMoves(keys) != [] ==>
                CurrentPose() == Some(MovedAlong(math, old(Prepared(WindowAspect(width, height))).value,
                                                 PressedMoves(keys), cameraSpeed, seconds))
      ensures PressedMoves(keys) == [] ==> camera == old(camera) && CurrentPose() == old(CurrentPose())
    {
      RecordFrame(now);
      r := UpdateCameraFromKeyState(keys, seconds, width, height);
      if r.Fail? {
        return;
      }
      cursorPosition := mouse;
    }
  }
}
