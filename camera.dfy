/** The trackball-style camera controller of the GUI
    (gui/src/utilities/camera-controller.ts): mouse events drive a three-state
    machine (NONE, ORBIT, TWIST) and cursor baselines, the wheel accumulates a
    radius scale, and each update tick zooms (with the camera distance clamped
    into [minDistance, maxDistance]), orbits (with decaying inertia) and twists
    the camera, then resets the per-tick inputs. The square root and the
    quaternion rotation of THREE are supplied as a `Maths` value. */
module CameraController {
  import opened Vectors
  import opened Wrappers

  const EPSILON: real := 0.0001

  datatype CameraState = NONE | ORBIT | TWIST

  datatype Vec2 = Vec2(x: real, y: real)

  /** The runtime's square root, and rotating a vector by the quaternion
      made from an axis and an angle (setFromAxisAngle, then applyQuaternion). */
  datatype Maths = Maths(sqrt: real -> real, rotate: (Vec3, real, Vec3) -> Vec3)

  /** The public tuning fields; a maxDistance of None is Infinity. */
  datatype Settings = Settings(
    rotateSpeed: real, zoomSpeed: real, twistSpeed: real,
    minDistance: real, maxDistance: Option<real>, dampingFactor: real)

  const DefaultSettings: Settings := Settings(7.0, 0.97, 10.0, 0.0, None, 0.25)

  /** The controller's state together with its camera's position and up vector. */
  datatype Controls = Controls(
    state: CameraState,
    twistCursorOld: real, twistCursorNew: real,
    orbitCursorOld: Vec2, orbitCursorNew: Vec2, orbitCursorDelta: Vec2,
    target: Vec3, eye: Vec3,
    oldRotationAxis: Vec3, oldRotationAngle: real,
    radiusScale: real,
    position: Vec3, up: Vec3)

  function Abs(x: real): real {
    if x < 0.0 then -x else x
  }

  function Sqrt(m: Maths, x: real): real {
    m.sqrt(x)
  }

  function Rotate(m: Maths, axis: Vec3, angle: real, v: Vec3): Vec3 {
    m.rotate(axis, angle, v)
  }

  function Length(m: Maths, v: Vec3): real {
    Sqrt(m, Dot(v, v))
  }

  function Length2(m: Maths, v: Vec2): real {
    Sqrt(m, v.x * v.x + v.y * v.y)
  }

  /** THREE's normalize: divide by the length, or by 1 when it is 0. */
  function Normalize(m: Maths, v: Vec3): Vec3 {
    var l := Length(m, v);
    Scale(1.0 / (if l == 0.0 then 1.0 else l), v)
  }

  /** m's square root is exact on x. */
  predicate RootOf(m: Maths, x: real) {
    Sqrt(m, x) >= 0.0 && Sqrt(m, x) * Sqrt(m, x) == x
  }

  // ---------------------------------------------------------------------------
  // Mouse input

  /** The cursor in units of half the element width, y up, origin at the centre. */
  function OrbitCursorPosition(clientX: real, clientY: real, width: real, height: real): Vec2
    requires width != 0.0
  {
    var radius := width * 0.5;
    Vec2((clientX - width * 0.5) / radius, (height * 0.5 - clientY) / radius)
  }

  function TwistCursorPosition(clientX: real, width: real): real
    requires width != 0.0
  {
    clientX / width
  }

  function MouseDown(c: Controls, button: int, clientX: real, clientY: real, width: real, height: real): Controls
    requires width != 0.0
  {
    var orbit := OrbitCursorPosition(clientX, clientY, width, height);
    var twist := TwistCursorPosition(clientX, width);
    c.(radiusScale := 1.0, oldRotationAngle := 0.0,
       state := if button == 0 then ORBIT else if button == 2 then TWIST else c.state,
       orbitCursorNew := orbit, orbitCursorOld := orbit,
       twistCursorNew := twist, twistCursorOld := twist)
  }

  function MouseMove(c: Controls, clientX: real, clientY: real, width: real, height: real): Controls
    requires c.state != NONE ==> width != 0.0
  {
    if c.state == ORBIT then
      c.(orbitCursorOld := c.orbitCursorNew, orbitCursorNew := OrbitCursorPosition(clientX, clientY, width, height))
    else if c.state == TWIST then
      c.(twistCursorOld := c.twistCursorNew, twistCursorNew := TwistCursorPosition(clientX, width))
    else c
  }

  function MouseUp(c: Controls): Controls {
    c.(state := NONE, orbitCursorOld := c.orbitCursorNew, twistCursorOld := c.twistCursorNew)
  }

  function MouseWheel(c: Controls, s: Settings, deltaY: real): Controls
    requires c.state == NONE && deltaY > 0.0 ==> s.zoomSpeed != 0.0
  {
    if c.state != NONE then c
    else if deltaY < 0.0 then c.(radiusScale := c.radiusScale * s.zoomSpeed)
    else if deltaY > 0.0 then c.(radiusScale := c.radiusScale / s.zoomSpeed)
    else c
  }

  /** Mouse-down starts a fresh gesture: no zoom, no inertia, both cursor
      baselines at the pointer; button 0 orbits, button 2 twists, any other
      button keeps the state. */
  lemma MouseDownStartsGesture(c: Controls, button: int, clientX: real, clientY: real, width: real, height: real)
    requires width != 0.0
    ensures var r := MouseDown(c, button, clientX, clientY, width, height);
      && r.radiusScale == 1.0 && r.oldRotationAngle == 0.0
      && (button == 0 ==> r.state == ORBIT) && (button == 2 ==> r.state == TWIST)
      && (button != 0 && button != 2 ==> r.state == c.state)
      && r.orbitCursorOld == r.orbitCursorNew && r.twistCursorOld == r.twistCursorNew
      && r.eye == c.eye && r.position == c.position && r.up == c.up && r.target == c.target
  {
  }

  /** Moving the mouse changes nothing without a gesture, and otherwise shifts
      only the cursors of the current gesture, the old one taking the previous
      new one. */
  lemma MouseMoveShiftsCursor(c: Controls, clientX: real, clientY: real, width: real, height: real)
    requires c.state != NONE ==> width != 0.0
    ensures var r := MouseMove(c, clientX, clientY, width, height);
      && (c.state == NONE ==> r == c)
      && (c.state == ORBIT ==> r == c.(orbitCursorOld := c.orbitCursorNew, orbitCursorNew := r.orbitCursorNew))
      && (c.state == TWIST ==> r == c.(twistCursorOld := c.twistCursorNew, twistCursorNew := r.twistCursorNew))
  {
  }

  /** Mouse-up ends the gesture and snaps both baselines to the cursors. */
  lemma MouseUpEndsGesture(c: Controls)
    ensures MouseUp(c).state == NONE
    ensures MouseUp(c).orbitCursorOld == MouseUp(c).orbitCursorNew == c.orbitCursorNew
    ensures MouseUp(c).twistCursorOld == MouseUp(c).twistCursorNew == c.twistCursorNew
    ensures MouseUp(MouseUp(c)) == MouseUp(c)
  {
  }

  /** The wheel only zooms outside a gesture: scrolling up multiplies the
      radius scale by zoomSpeed, scrolling down divides it, and a scroll up
      followed by a scroll down restores it. */
  lemma WheelZooms(c: Controls, s: Settings, deltaY: real)
    requires s.zoomSpeed != 0.0
    ensures c.state != NONE ==> MouseWheel(c, s, deltaY) == c
    ensures deltaY == 0.0 ==> MouseWheel(c, s, deltaY) == c
    ensures c.state == NONE && deltaY < 0.0 ==> MouseWheel(c, s, deltaY).radiusScale == c.radiusScale * s.zoomSpeed
    ensures c.state == NONE && deltaY > 0.0 ==> MouseWheel(c, s, deltaY).radiusScale * s.zoomSpeed == c.radiusScale
    ensures MouseWheel(c, s, deltaY) == c.(radiusScale := MouseWheel(c, s, deltaY).radiusScale)
  {
    if c.state == NONE && deltaY > 0.0 {
      DivideThenMultiply(c.radiusScale, s.zoomSpeed);
    }
  }

  /** A scroll up followed by a scroll down restores the radius scale. */
  lemma WheelUpThenDown(c: Controls, s: Settings)
    requires s.zoomSpeed != 0.0 && c.state == NONE
    ensures MouseWheel(MouseWheel(c, s, -1.0), s, 1.0) == c
  {
    MultiplyThenDivide(c.radiusScale, s.zoomSpeed);
  }

  lemma MultiplyThenDivide(x: real, k: real)
    requires k != 0.0
    ensures (x * k) / k == x
  {
  }

  lemma DivideThenMultiply(x: real, k: real)
    requires k != 0.0
    ensures (x / k) * k == x
  {
  }

  // ---------------------------------------------------------------------------
  // The update tick

  /** The camera distance after zooming: |eye| * radiusScale clamped into
      [minDistance, maxDistance]. */
  function ClampRadius(s: Settings, radius: real): real {
    var upper := if s.maxDistance.Some? && s.maxDistance.value < radius then s.maxDistance.value else radius;
    if s.minDistance > upper then s.minDistance else upper
  }

  /** What zoomCamera needs: a non-zero eye length whenever it zooms. */
  predicate CanZoom(c: Controls, m: Maths) {
    Abs(1.0 - c.radiusScale) >= EPSILON ==> Length(m, c.eye) != 0.0
  }

  /** Models zoomCamera: no change while the radius scale is within EPSILON
      of 1; otherwise the eye keeps its direction and gets the clamped length. */
  function Zoom(c: Controls, s: Settings, m: Maths): (Controls, bool)
    requires CanZoom(c, m)
  {
    if Abs(1.0 - c.radiusScale) < EPSILON then (c, false)
    else (c.(eye := ZoomedEye(s, c.eye, Length(m, c.eye), c.radiusScale)), true)
  }

  /** An eye of length radius rescaled to radius * radiusScale, clamped. */
  function ZoomedEye(s: Settings, eye: Vec3, radius: real, radiusScale: real): Vec3
    requires radius != 0.0
  {
    Rescale(eye, radius, ClampRadius(s, radius * radiusScale))
  }

  /** v divided by radius (its direction, when radius is its length), then
      multiplied by newRadius. */
  function Rescale(v: Vec3, radius: real, newRadius: real): Vec3
    requires radius != 0.0
  {
    Scale(newRadius, Scale(1.0 / radius, v))
  }

  /** The clamped distance lies in [minDistance, maxDistance] when that range
      is not empty, and is at least minDistance in any case. */
  lemma ClampRadiusInRange(s: Settings, radius: real)
    ensures ClampRadius(s, radius) >= s.minDistance
    ensures s.maxDistance.Some? && s.minDistance <= s.maxDistance.value ==> ClampRadius(s, radius) <= s.maxDistance.value
    ensures (s.maxDistance.None? || radius <= s.maxDistance.value) && s.minDistance <= radius
      ==> ClampRadius(s, radius) == radius
  {
  }

  /** A radius scale within EPSILON of 1 is no zoom: nothing changes and
      the step reports false. */
  lemma ZoomIdle(c: Controls, s: Settings, m: Maths)
    requires Abs(1.0 - c.radiusScale) < EPSILON
    ensures Zoom(c, s, m) == (c, false)
  {
  }

  /** Otherwise the zoom reports true and only the eye changes: it becomes
      the zoomed eye for the eye's length, whose clamped radius r is at least
      minDistance and, for a non-empty range, at most maxDistance, and whose
      length is r when the square root of |eye|^2 is exact
      (ZoomedEyeScaled says what the zoomed eye is for any input). */
  lemma ZoomMovesEye(c: Controls, s: Settings, m: Maths)
    requires Abs(1.0 - c.radiusScale) >= EPSILON && Length(m, c.eye) != 0.0
    ensures Zoom(c, s, m) == (c.(eye := ZoomedEye(s, c.eye, Length(m, c.eye), c.radiusScale)), true)
    ensures var r := ClampRadius(s, Length(m, c.eye) * c.radiusScale);
      && r >= s.minDistance
      && (s.maxDistance.Some? && s.minDistance <= s.maxDistance.value ==> r <= s.maxDistance.value)
    ensures var r := ClampRadius(s, Length(m, c.eye) * c.radiusScale);
      var e := ZoomedEye(s, c.eye, Length(m, c.eye), c.radiusScale);
      RootOf(m, Dot(c.eye, c.eye)) ==> Dot(e, e) == r * r
  {
    ZoomedEyeScaled(s, c.eye, Length(m, c.eye), c.radiusScale);
  }

  /** The zoomed eye is the eye times r / radius for the clamped radius r,
      which lies in the distance range, and has length r when radius is the
      length of the eye. */
  lemma ZoomedEyeScaled(s: Settings, eye: Vec3, radius: real, radiusScale: real)
    requires radius != 0.0
    ensures var r := ClampRadius(s, radius * radiusScale);
      var e := ZoomedEye(s, eye, radius, radiusScale);
      && e == Scale(r / radius, eye)
      && r >= s.minDistance
      && (s.maxDistance.Some? && s.minDistance <= s.maxDistance.value ==> r <= s.maxDistance.value)
      && (radius * radius == Dot(eye, eye) ==> Dot(e, e) == r * r)
  {
    ClampRadiusInRange(s, radius * radiusScale);
    RescaleKeepsDirection(eye, radius, ClampRadius(s, radius * radiusScale));
  }

  /** Rescaling multiplies v by newRadius / radius, so it keeps v's direction
      for a positive ratio; when radius is the length of v, the result has
      length newRadius. */
  lemma RescaleKeepsDirection(v: Vec3, radius: real, newRadius: real)
    requires radius != 0.0
    ensures Rescale(v, radius, newRadius) == Scale(newRadius / radius, v)
    ensures radius * radius == Dot(v, v) ==>
      Dot(Rescale(v, radius, newRadius), Rescale(v, radius, newRadius)) == newRadius * newRadius
  {
    ScaleTwice(newRadius, 1.0 / radius, v);
    assert newRadius * (1.0 / radius) == newRadius / radius;
    if radius * radius == Dot(v, v) {
      ScaledToLength(newRadius, radius, v);
    }
  }

  lemma ScaledToLength(k: real, radius: real, v: Vec3)
    requires radius != 0.0 && radius * radius == Dot(v, v)
    ensures Dot(Scale(k / radius, v), Scale(k / radius, v)) == k * k
  {
    ScaledLength(k / radius, v);
    assert (k / radius) * radius == k;
    assert (k / radius) * (k / radius) * (radius * radius) == ((k / radius) * radius) * ((k / radius) * radius);
  }

  lemma ScaleTwice(a: real, b: real, v: Vec3)
    ensures Scale(a, Scale(b, v)) == Scale(a * b, v)
  {
    assert a * (b * v.x) == (a * b) * v.x;
    assert a * (b * v.y) == (a * b) * v.y;
    assert a * (b * v.z) == (a * b) * v.z;
  }

  lemma ScaledLength(k: real, v: Vec3)
    ensures Dot(Scale(k, v), Scale(k, v)) == k * k * Dot(v, v)
  {
    assert (k * v.x) * (k * v.x) == k * k * (v.x * v.x);
    assert (k * v.y) * (k * v.y) == k * k * (v.y * v.y);
    assert (k * v.z) * (k * v.z) == k * k * (v.z * v.z);
  }

  function Subtract2(a: Vec2, b: Vec2): Vec2 {
    Vec2(a.x - b.x, a.y - b.y)
  }

  /** The angle a cursor motion turns the camera by in a tick of length delta. */
  function RotationAngle(cursorDelta: real, speed: real, delta: real): real {
    cursorDelta * speed * delta * 100.0
  }

  /** The inertia angle after one tick of damping. */
  function Damped(m: Maths, angle: real, dampingFactor: real): real {
    angle * Sqrt(m, 1.0 - dampingFactor)
  }

  /** The axis of an orbit rotation: perpendicular to the eye direction and
      to the cursor motion mapped onto the screen's up and right vectors. */
  function OrbitAxis(m: Maths, up: Vec3, eyeDirection: Vec3, cursorDelta: Vec2): Vec3 {
    var cameraUp := Normalize(m, up);
    var cameraRight := Cross(cameraUp, eyeDirection);
    var cameraDelta := Add(Scale(cursorDelta.y, cameraUp), Scale(cursorDelta.x, cameraRight));
    Normalize(m, Cross(cameraDelta, eyeDirection))
  }

  /** Models orbitCamera: the inertia angle decays by sqrt(1 - dampingFactor);
      with neither cursor motion nor inertia left nothing else happens. A
      cursor motion in ORBIT rotates eye and up about the axis perpendicular
      to the motion and records the new rotation; otherwise, outside a
      gesture, the remaining inertia repeats the last rotation. */
  function Orbit(c: Controls, s: Settings, m: Maths, delta: real): (Controls, bool) {
    var orbitCursorDelta := Subtract2(c.orbitCursorNew, c.orbitCursorOld);
    var rotationDelta := Length2(m, orbitCursorDelta);
    var decayed := Damped(m, c.oldRotationAngle, s.dampingFactor);
    var c1 := c.(orbitCursorDelta := orbitCursorDelta, oldRotationAngle := decayed);
    if Abs(rotationDelta) < EPSILON && decayed < EPSILON then (c1, false)
    else
      var eyeDirection := Normalize(m, c.eye);
      if rotationDelta >= EPSILON && c.state == ORBIT then
        var rotationAxis := OrbitAxis(m, c.up, eyeDirection, orbitCursorDelta);
        var newRotationAngle := RotationAngle(rotationDelta, s.rotateSpeed, delta);
        (c1.(eye := Rotate(m, rotationAxis, newRotationAngle, c.eye),
             up := Rotate(m, rotationAxis, newRotationAngle, c.up),
             oldRotationAxis := rotationAxis, oldRotationAngle := newRotationAngle), true)
      else if decayed >= EPSILON && c.state == NONE then
        (c1.(eye := Rotate(m, c.oldRotationAxis, decayed, c.eye),
             up := Rotate(m, c.oldRotationAxis, decayed, c.up)), true)
      else (c1, true)
  }

  /** Without a new orbit rotation the inertia angle becomes the damped old
      angle. The step reports false exactly when both the cursor motion and
      the damped angle are below EPSILON, and then only the orbit delta and
      the angle change. */
  lemma OrbitInertiaDecays(c: Controls, s: Settings, m: Maths, delta: real)
    ensures var (r, orbited) := Orbit(c, s, m, delta);
      var rotationDelta := Length2(m, Subtract2(c.orbitCursorNew, c.orbitCursorOld));
      var decayed := Damped(m, c.oldRotationAngle, s.dampingFactor);
      && (!orbited <==> Abs(rotationDelta) < EPSILON && decayed < EPSILON)
      && (!orbited ==> r == c.(orbitCursorDelta := r.orbitCursorDelta, oldRotationAngle := decayed))
      && (!(orbited && rotationDelta >= EPSILON && c.state == ORBIT) ==> r.oldRotationAngle == decayed)
      && r.orbitCursorOld == c.orbitCursorOld && r.orbitCursorNew == c.orbitCursorNew
      && r.target == c.target && r.position == c.position && r.state == c.state
  {
  }

  /** Damping by a factor in [0, 1] with an exact square root never makes a
      non-negative inertia angle grow or turn negative. */
  lemma DampingShrinks(m: Maths, angle: real, dampingFactor: real)
    requires 0.0 <= dampingFactor <= 1.0 && RootOf(m, 1.0 - dampingFactor) && angle >= 0.0
    ensures 0.0 <= Damped(m, angle, dampingFactor) <= angle
  {
    assert Damped(m, angle, dampingFactor) == angle * Sqrt(m, 1.0 - dampingFactor);
    RootBelowOne(Sqrt(m, 1.0 - dampingFactor));
    ProductBelow(angle, Sqrt(m, 1.0 - dampingFactor));
  }

  lemma RootBelowOne(r: real)
    requires 0.0 <= r && r * r <= 1.0
    ensures r <= 1.0
  {
  }

  lemma ProductBelow(a: real, r: real)
    requires 0.0 <= a && 0.0 <= r <= 1.0
    ensures 0.0 <= a * r <= a
  {
  }

  /** Models twistCamera: rotate up about the eye direction by the twist
      cursor motion times twistSpeed * delta * 100, unless that is below EPSILON. */
  function Twist(c: Controls, s: Settings, m: Maths, delta: real): (Controls, bool) {
    var twistCursorDelta := c.twistCursorNew - c.twistCursorOld;
    var rotationDelta := RotationAngle(twistCursorDelta, s.twistSpeed, delta);
    if Abs(rotationDelta) < EPSILON then (c, false)
    else (c.(up := Rotate(m, Normalize(m, c.eye), rotationDelta, c.up)), true)
  }

  /** A twist cursor motion whose angle is below EPSILON is no twist: nothing
      changes and the step reports false. Otherwise the step reports true
      and only the up vector changes, rotated about the eye direction by
      that angle. */
  lemma TwistReturn(c: Controls, s: Settings, m: Maths, delta: real)
    ensures var (r, twisted) := Twist(c, s, m, delta);
      var angle := RotationAngle(c.twistCursorNew - c.twistCursorOld, s.twistSpeed, delta);
      && (!twisted <==> Abs(angle) < EPSILON)
      && (!twisted ==> r == c)
      && (twisted ==> r == c.(up := Rotate(m, Normalize(m, c.eye), angle, c.up)))
  {
  }

  /** Without twist cursor motion since the last tick, or with a zero tick
      length, the twist does nothing and reports false. */
  lemma TwistIdle(c: Controls, s: Settings, m: Maths, delta: real)
    requires c.twistCursorNew == c.twistCursorOld || delta == 0.0
    ensures Twist(c, s, m, delta) == (c, false)
  {
    var angle := RotationAngle(c.twistCursorNew - c.twistCursorOld, s.twistSpeed, delta);
    assert angle == 0.0 by { ZeroFactor(c.twistCursorNew - c.twistCursorOld, s.twistSpeed, delta); }
  }

  lemma ZeroFactor(a: real, b: real, d: real)
    requires a == 0.0 || d == 0.0
    ensures a * b * d * 100.0 == 0.0
  {
  }

  /** What an update tick needs: a zoom it can carry out. */
  predicate CanUpdate(c: Controls, m: Maths) {
    CanZoom(c.(eye := Sub(c.position, c.target)), m)
  }

  /** Models update: the eye from target to camera, then zoom, orbit and
      twist in that order, the camera placed at target + eye, and the
      per-tick inputs reset. The result says whether any of the three moved. */
  function Tick(c: Controls, s: Settings, m: Maths, delta: real): (Controls, bool)
    requires CanUpdate(c, m)
  {
    var c0 := c.(eye := Sub(c.position, c.target));
    var (c1, hasZoomed) := Zoom(c0, s, m);
    var (c2, hasOrbited) := Orbit(c1, s, m, delta);
    var (c3, hasTwisted) := Twist(c2, s, m, delta);
    (c3.(position := Add(c3.target, c3.eye),
         orbitCursorDelta := Vec2(0.0, 0.0),
         orbitCursorOld := c3.orbitCursorNew,
         twistCursorOld := c3.twistCursorNew,
         radiusScale := 1.0),
     hasZoomed || hasOrbited || hasTwisted)
  }

  /** After a tick the inputs are consumed: no zoom pending, both cursor
      baselines at the cursors, which themselves are unchanged, a zero orbit
      delta, and the same state and target. */
  lemma UpdateConsumesInput(c: Controls, s: Settings, m: Maths, delta: real)
    requires CanUpdate(c, m)
    ensures var (r, _) := Tick(c, s, m, delta);
      && r.radiusScale == 1.0
      && r.orbitCursorOld == r.orbitCursorNew == c.orbitCursorNew
      && r.twistCursorOld == r.twistCursorNew == c.twistCursorNew
      && r.orbitCursorDelta == Vec2(0.0, 0.0)
      && r.state == c.state && r.target == c.target
      && r.position == Add(c.target, r.eye)
  {
  }

  /** The tick reports the OR of the zoom, orbit and twist results, each
      computed on the outcome of the previous one. */
  lemma UpdateResult(c: Controls, s: Settings, m: Maths, delta: real)
    requires CanUpdate(c, m)
    ensures var c0 := c.(eye := Sub(c.position, c.target));
      var (c1, z) := Zoom(c0, s, m);
      var (c2, o) := Orbit(c1, s, m, delta);
      var (c3, t) := Twist(c2, s, m, delta);
      Tick(c, s, m, delta).1 == (z || o || t) && Tick(c, s, m, delta).0.eye == c3.eye
      && Tick(c, s, m, delta).0.up == c3.up
  {
  }

  /** The controller's fields as initialised, with the camera's position and up. */
  function Initial(position: Vec3, up: Vec3): Controls {
    Controls(NONE, 0.0, 0.0, Vec2(0.0, 0.0), Vec2(0.0, 0.0), Vec2(0.0, 0.0), Zero, Zero,
             Zero, 0.0, 1.0, position, up)
  }

  /** Models setLookAt: the camera position and the target (the camera's
      orientation towards the target belongs to THREE). */
  function PlaceCamera(c: Controls, position: Vec3, target: Vec3): Controls {
    c.(position := position, target := target)
  }

  /** No pending input: no zoom, no cursor motion, no inertia. */
  predicate Idle(c: Controls) {
    c.radiusScale == 1.0 && c.orbitCursorNew == c.orbitCursorOld && c.twistCursorNew == c.twistCursorOld
    && c.oldRotationAngle == 0.0
  }

  /** With no pending input (and the square root exact at 0), setLookAt(p, t)
      followed by an update leaves the camera at p with eye p - t, moves
      nothing and reports false. */
  lemma LookAtThenIdleUpdate(c: Controls, s: Settings, m: Maths, delta: real, p: Vec3, t: Vec3)
    requires Idle(c) && Sqrt(m, 0.0) == 0.0
    ensures CanUpdate(PlaceCamera(c, p, t), m)
    ensures var (r, moved) := Tick(PlaceCamera(c, p, t), s, m, delta);
      && r.eye == Sub(p, t) && r.position == p && r.target == t && r.up == c.up && !moved
  {
    var c' := PlaceCamera(c, p, t);
    var c0 := c'.(eye := Sub(p, t));
    assert Zoom(c0, s, m) == (c0, false);
    var orbitCursorDelta := Subtract2(c.orbitCursorNew, c.orbitCursorOld);
    assert orbitCursorDelta == Vec2(0.0, 0.0);
    assert Length2(m, orbitCursorDelta) == 0.0;
    assert !Orbit(c0, s, m, delta).1;
    assert Add(t, Sub(p, t)) == p;
  }

  // ---------------------------------------------------------------------------
  // The controller object

  class PerspectiveCamera {
    var position: Vec3
    var up: Vec3

    constructor(position: Vec3, up: Vec3)
      ensures this.position == position && this.up == up
    {
      this.position := position;
      this.up := up;
    }
  }

  class CameraControls {
    var state: CameraState
    var twistCursorOld: real
    var twistCursorNew: real
    var orbitCursorOld: Vec2
    var orbitCursorNew: Vec2
    var orbitCursorDelta: Vec2
    var target: Vec3
    var eye: Vec3
    var oldRotationAxis: Vec3
    var oldRotationAngle: real
    var radiusScale: real

    var rotateSpeed: real
    var zoomSpeed: real
    var twistSpeed: real
    var minDistance: real
    var maxDistance: Option<real>
    var dampingFactor: real

    const camera: PerspectiveCamera

    function Snapshot(): Controls
      reads this, camera
    {
      Controls(state, twistCursorOld, twistCursorNew, orbitCursorOld, orbitCursorNew, orbitCursorDelta,
               target, eye, oldRotationAxis, oldRotationAngle, radiusScale, camera.position, camera.up)
    }

    function Config(): Settings
      reads this
    {
      Settings(rotateSpeed, zoomSpeed, twistSpeed, minDistance, maxDistance, dampingFactor)
    }

    /** The fields start at zero with the default settings, then one update
        tick with delta 0 runs. */
    constructor(camera: PerspectiveCamera, m: Maths)
      modifies camera
      ensures this.camera == camera && Config() == DefaultSettings
      ensures Snapshot() == Tick(Initial(old(camera.position), old(camera.up)), DefaultSettings, m, 0.0).0
    {
      this.camera := camera;
      state := NONE;
      twistCursorOld, twistCursorNew := 0.0, 0.0;
      orbitCursorOld, orbitCursorNew, orbitCursorDelta := Vec2(0.0, 0.0), Vec2(0.0, 0.0), Vec2(0.0, 0.0);
      target, eye := Zero, Zero;
      oldRotationAxis, oldRotationAngle := Zero, 0.0;
      radiusScale := 1.0;
      rotateSpeed, zoomSpeed, twistSpeed := 7.0, 0.97, 10.0;
      minDistance, maxDistance := 0.0, None;
      dampingFactor := 0.25;
      new;
      ghost var start, settings := Snapshot(), Config();
      assert start == Initial(old(camera.position), old(camera.up));
      assert settings == DefaultSettings;
      var moved := Update(m, 0.0);
      assert (Snapshot(), moved) == Tick(start, settings, m, 0.0);
    }

    /** Models onMouseDown for a press of button at (clientX, clientY) on an
        element of the given size. */
    method OnMouseDown(button: int, clientX: real, clientY: real, width: real, height: real)
      requires width != 0.0
      modifies this
      ensures Snapshot() == MouseDown(old(Snapshot()), button, clientX, clientY, width, height)
      ensures Config() == old(Config())
    {
      radiusScale := 1.0;
      oldRotationAngle := 0.0;
      if button == 0 {
        state := ORBIT;
      } else if button == 2 {
        state := TWIST;
      }
      ResetCursors(OrbitCursorPosition(clientX, clientY, width, height), TwistCursorPosition(clientX, width));
    }

    /** Both cursors, new and old, at the pointer. */
    method ResetCursors(orbitCursor: Vec2, twistCursor: real)
      modifies this
      ensures Snapshot() == old(Snapshot()).(orbitCursorNew := orbitCursor, orbitCursorOld := orbitCursor,
        twistCursorNew := twistCursor, twistCursorOld := twistCursor)
      ensures Config() == old(Config())
    {
      orbitCursorNew := orbitCursor;
      orbitCursorOld := orbitCursorNew;
      twistCursorNew := twistCursor;
      twistCursorOld := twistCursorNew;
    }

    method OnMouseMove(clientX: real, clientY: real, width: real, height: real)
      requires state != NONE ==> width != 0.0
      modifies this
      ensures Snapshot() == MouseMove(old(Snapshot()), clientX, clientY, width, height)
      ensures Config() == old(Config())
    {
      if state == ORBIT {
        orbitCursorOld := orbitCursorNew;
        orbitCursorNew := OrbitCursorPosition(clientX, clientY, width, height);
      } else if state == TWIST {
        twistCursorOld := twistCursorNew;
        twistCursorNew := TwistCursorPosition(clientX, width);
      }
    }

    method OnMouseUp()
      modifies this
      ensures Snapshot() == MouseUp(old(Snapshot()))
      ensures Config() == old(Config())
    {
      state := NONE;
      orbitCursorOld := orbitCursorNew;
      twistCursorOld := twistCursorNew;
    }

    method OnMouseWheel(deltaY: real)
      requires state == NONE && deltaY > 0.0 ==> zoomSpeed != 0.0
      modifies this
      ensures Snapshot() == MouseWheel(old(Snapshot()), old(Config()), deltaY)
      ensures Config() == old(Config())
    {
      if state != NONE {
        return;
      }
      if deltaY < 0.0 {
        radiusScale := radiusScale * zoomSpeed;
      } else if deltaY > 0.0 {
        radiusScale := radiusScale / zoomSpeed;
      }
    }

    method ZoomCamera(m: Maths) returns (zoomed: bool)
      requires CanZoom(Snapshot(), m)
      modifies this
      ensures (Snapshot(), zoomed) == Zoom(old(Snapshot()), old(Config()), m)
      ensures Config() == old(Config())
    {
      if Abs(1.0 - radiusScale) < EPSILON {
        return false;
      }
      ghost var before := Snapshot();
      var radius := Length(m, eye);
      ghost var newEye := ZoomedEye(Config(), eye, radius, radiusScale);
      var eyeDirection := Scale(1.0 / radius, eye);
      radius := ClampRadius(Config(), radius * radiusScale);
      eye := Scale(radius, eyeDirection);
      assert Snapshot() == before.(eye := newEye);
      return true;
    }

    method OrbitCamera(m: Maths, delta: real) returns (orbited: bool)
      modifies this, camera
      ensures (Snapshot(), orbited) == Orbit(old(Snapshot()), old(Config()), m, delta)
      ensures Config() == old(Config())
    {
      orbitCursorDelta, oldRotationAngle := Subtract2(orbitCursorNew, orbitCursorOld), Damped(m, oldRotationAngle, dampingFactor);
      var rotationDelta := Length2(m, orbitCursorDelta);
      if Abs(rotationDelta) < EPSILON && oldRotationAngle < EPSILON {
        return false;
      }
      var eyeDirection := Normalize(m, eye);
      if rotationDelta >= EPSILON && state == ORBIT {
        var rotationAxis := OrbitAxis(m, camera.up, eyeDirection, orbitCursorDelta);
        var newRotationAngle := RotationAngle(rotationDelta, rotateSpeed, delta);
        ApplyRotation(m, rotationAxis, newRotationAngle);
        oldRotationAxis, oldRotationAngle := rotationAxis, newRotationAngle;
      } else if oldRotationAngle >= EPSILON && state == NONE {
        ApplyRotation(m, oldRotationAxis, oldRotationAngle);
      }
      return true;
    }

    /** Rotate both the eye and the camera's up vector by angle about axis. */
    method ApplyRotation(m: Maths, axis: Vec3, angle: real)
      modifies this, camera
      ensures Snapshot() == old(Snapshot()).(eye := Rotate(m, axis, angle, old(eye)), up := Rotate(m, axis, angle, old(camera.up)))
      ensures Config() == old(Config())
    {
      eye := Rotate(m, axis, angle, eye);
      camera.up := Rotate(m, axis, angle, camera.up);
    }

    method TwistCamera(m: Maths, delta: real) returns (twisted: bool)
      modifies camera
      ensures (Snapshot(), twisted) == Twist(old(Snapshot()), old(Config()), m, delta)
    {
      var twistCursorDelta := twistCursorNew - twistCursorOld;
      var rotationDelta := RotationAngle(twistCursorDelta, twistSpeed, delta);
      if Abs(rotationDelta) < EPSILON {
        return false;
      }
      var eyeDirection := Normalize(m, eye);
      camera.up := Rotate(m, eyeDirection, rotationDelta, camera.up);
      return true;
    }

    /** Models update for a tick of length delta. */
    method Update(m: Maths, delta: real) returns (moved: bool)
      requires CanUpdate(Snapshot(), m)
      modifies this, camera
      ensures (Snapshot(), moved) == Tick(old(Snapshot()), old(Config()), m, delta)
      ensures Config() == old(Config())
    {
      eye := Sub(camera.position, target);
      var hasZoomed := ZoomCamera(m);
      var hasOrbited := OrbitCamera(m, delta);
      var hasTwisted := TwistCamera(m, delta);
      FinishTick();
      return hasZoomed || hasOrbited || hasTwisted;
    }

    /** The end of update: place the camera at target + eye and consume the
        per-tick inputs. */
    method FinishTick()
      modifies this, camera
      ensures Snapshot() == old(Snapshot()).(position := Add(old(target), old(eye)), orbitCursorDelta := Vec2(0.0, 0.0),
        orbitCursorOld := old(orbitCursorNew), twistCursorOld := old(twistCursorNew), radiusScale := 1.0)
      ensures Config() == old(Config())
    {
      camera.position := Add(target, eye);
      orbitCursorDelta := Vec2(0.0, 0.0);
      orbitCursorOld := orbitCursorNew;
      twistCursorOld := twistCursorNew;
      radiusScale := 1.0;
    }

    method SetLookAt(positionX: real, positionY: real, positionZ: real, targetX: real, targetY: real, targetZ: real)
      modifies this, camera
      ensures Snapshot() == PlaceCamera(old(Snapshot()), Vec3(positionX, positionY, positionZ),
                                                       Vec3(targetX, targetY, targetZ))
      ensures Config() == old(Config())
    {
      camera.position := Vec3(positionX, positionY, positionZ);
      target := Vec3(targetX, targetY, targetZ);
    }
  }
}
