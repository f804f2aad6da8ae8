/** The orbit controller of orbitcontrols.js as a pure state machine: one value
    holds everything the controller's closure keeps (configuration, the
    camera's spherical offset, the pending deltas, the zoom flag, the drag
    start point and which listeners are registered), and each handler and
    `update` is a function from the old value to the new one.

    The camera's Cartesian position is not part of the state: the three.js
    conversions around `update` (`setFromVector3`, `setFromSpherical`, the
    up-axis quaternion and `lookAt`) are taken to be exact inverses, so the
    spherical offset of the camera from the target is the state itself. */
module Orbit {
  import opened Limits

  /** three.js `Spherical`: radius, polar angle `phi` measured from +Y, azimuth
      `theta`.  The controller uses it both for the camera offset and for the
      pending deltas. */
  datatype Spherical = Spherical(radius: real, phi: real, theta: real)

  datatype Point = Point(x: real, y: real)

  /** The public configuration fields the update and the handlers read.  An
      absent bound stands for the source's `Infinity` / `-Infinity`. */
  datatype Config = Config(
    enabled: bool,
    minDistance: real, maxDistance: Option<real>,
    minPolarAngle: real, maxPolarAngle: real,
    minAzimuthAngle: Option<real>, maxAzimuthAngle: Option<real>,
    enableZoom: bool, zoomSpeed: real,
    enableRotate: bool, rotateSpeed: real,
    autoRotate: bool, autoRotateSpeed: real,
    enableDamping: bool, dampingFactor: real)

  /** Which handlers are registered: `wheel` and `mouseDown` on the element,
      `mouseMove` and `mouseUp` on the document while a drag lasts. */
  datatype Listeners = Listeners(wheel: bool, mouseDown: bool, mouseMove: bool, mouseUp: bool)

  datatype State = State(
    config: Config,
    spherical: Spherical,
    delta: Spherical,
    zoomChanged: bool,
    rotateStart: Point,
    listeners: Listeners)

  /** The DOM events the controller listens to, with the fields it reads. */
  datatype Event =
    | WheelEvent(deltaY: Option<real>)
    | MouseDownEvent(clientX: real, clientY: real)
    | MouseMoveEvent(clientX: real, clientY: real)
    | MouseUpEvent

  const Zero: Spherical := Spherical(0.0, 0.0, 0.0)

  /** The defaults the constructor assigns. */
  const DefaultConfig: Config := Config(
    enabled := true,
    minDistance := 0.0, maxDistance := None,
    minPolarAngle := 0.0, maxPolarAngle := Pi,
    minAzimuthAngle := None, maxAzimuthAngle := None,
    enableZoom := true, zoomSpeed := 1.0,
    enableRotate := true, rotateSpeed := 1.0,
    autoRotate := false, autoRotateSpeed := 2.0,
    enableDamping := true, dampingFactor := 0.05)

  /** Registrations are made and dropped in pairs: move and up together, wheel
      and mousedown together, and a drag only while mousedown is registered. */
  predicate ListenersValid(l: Listeners)
  {
    l.mouseMove == l.mouseUp && (l.mouseMove ==> l.mouseDown) && l.wheel == l.mouseDown
  }

  predicate NoListeners(l: Listeners)
  {
    !l.wheel && !l.mouseDown && !l.mouseMove && !l.mouseUp
  }

  // ---------------------------------------------------------------------------
  // Construction

  /** The constructor as written: `sphericalDelta` is a fresh three.js
      `Spherical()`, whose radius defaults to 1, not 0. */
  function ConstructAsWritten(offset: Spherical): (st: State)
    ensures st.config == DefaultConfig && st.spherical == offset
    ensures st.delta == Spherical(1.0, 0.0, 0.0) && !st.zoomChanged
    ensures st.listeners == Listeners(true, true, false, false) && ListenersValid(st.listeners)
  {
    State(DefaultConfig, offset, Spherical(1.0, 0.0, 0.0), false, Point(0.0, 0.0),
          Listeners(wheel := true, mouseDown := true, mouseMove := false, mouseUp := false))
  }

  /** The constructor with the pending deltas starting at zero, as the rest of
      the controller evidently expects: nothing is pending before any input. */
  function Construct(offset: Spherical): (st: State)
    ensures st.config == DefaultConfig && st.spherical == offset
    ensures st.delta == Zero && !st.zoomChanged && st.rotateStart == Point(0.0, 0.0)
    ensures st.listeners == Listeners(true, true, false, false) && ListenersValid(st.listeners)
  {
    ConstructAsWritten(offset).(delta := Zero)
  }

  // ---------------------------------------------------------------------------
  // Wheel

  /** The radius delta one wheel event adds: the sign of `deltaY` is inverted,
      and an absent `deltaY` counts as 0. */
  function WheelZoom(deltaY: Option<real>, zoomSpeed: real): (r: real)
    ensures deltaY.None? || deltaY.value == 0.0 || zoomSpeed == 0.0 <==> r == 0.0
    ensures zoomSpeed > 0.0 && deltaY.Some? ==> (deltaY.value < 0.0 <==> r > 0.0)
    ensures deltaY.Some? ==> r * 100.0 == -deltaY.value * zoomSpeed
  {
    var delta := if deltaY.Some? then -deltaY.value else 0.0;
    delta * 0.01 * zoomSpeed
  }

  function HandleMouseWheel(st: State, deltaY: Option<real>): (r: State)
    ensures !(st.config.enabled && st.config.enableZoom) ==> r == st
    ensures st.config.enabled && st.config.enableZoom ==>
      r.zoomChanged && r.delta.radius == st.delta.radius + WheelZoom(deltaY, st.config.zoomSpeed)
    ensures r.delta.theta == st.delta.theta && r.delta.phi == st.delta.phi
    ensures r.spherical == st.spherical && r.config == st.config
    ensures r.rotateStart == st.rotateStart && r.listeners == st.listeners
  {
    if !st.config.enabled || !st.config.enableZoom then st
    else
      var d := st.delta;
      st.(delta := d.(radius := d.radius + WheelZoom(deltaY, st.config.zoomSpeed)),
          zoomChanged := true)
  }

  // ---------------------------------------------------------------------------
  // Update

  /** The per-frame idle azimuth step: a full turn in 3600 frames at speed 1
      (one minute at 60 frames per second). */
  function AutoRotationAngle(speed: real): (r: real)
    ensures speed == 1.0 ==> r * 3600.0 == 2.0 * Pi
    ensures speed > 0.0 ==> r > 0.0
  {
    2.0 * Pi / 60.0 / 60.0 * speed
  }

  /** What the radius is multiplied by when a zoom is pending. */
  function ZoomFactor(deltaRadius: real): (r: real)
    ensures deltaRadius == 0.0 <==> r == 1.0
    ensures deltaRadius < 0.0 <==> r < 1.0
  {
    1.0 + deltaRadius * 0.1
  }

  /** The new spherical offset an update computes: auto-rotate, add the angle
      deltas, clamp the angles, make `phi` safe, zoom if flagged, clamp the
      radius. */
  function NextSpherical(c: Config, s: Spherical, d: Spherical, zoomChanged: bool): (r: Spherical)
    ensures c.minDistance <= r.radius
    ensures Ordered(Some(c.minDistance), c.maxDistance) ==> Within(Some(c.minDistance), c.maxDistance, r.radius)
    ensures Ordered(c.minAzimuthAngle, c.maxAzimuthAngle) ==> Within(c.minAzimuthAngle, c.maxAzimuthAngle, r.theta)
    ensures Eps <= r.phi <= Pi - Eps && 0.0 < r.phi < Pi
    ensures 0.0 <= c.minPolarAngle <= c.maxPolarAngle <= Pi ==>
      c.minPolarAngle - Eps <= r.phi <= c.maxPolarAngle + Eps
    ensures !zoomChanged ==> r.radius == Clamp(Some(c.minDistance), c.maxDistance, s.radius)
  {
    var theta := if c.autoRotate && c.enableRotate then s.theta + AutoRotationAngle(c.autoRotateSpeed) else s.theta;
    var theta := theta + d.theta;
    var phi := s.phi + d.phi;
    var theta := Clamp(c.minAzimuthAngle, c.maxAzimuthAngle, theta);
    var phi := MakeSafe(Clamp(Some(c.minPolarAngle), Some(c.maxPolarAngle), phi));
    var radius := if zoomChanged then s.radius * ZoomFactor(d.radius) else s.radius;
    var radius := Clamp(Some(c.minDistance), c.maxDistance, radius);
    Spherical(radius, phi, theta)
  }

  function Scale(d: Spherical, k: real): Spherical
  {
    Spherical(d.radius * k, d.phi * k, d.theta * k)
  }

  /** The deltas after an update: decayed by `1 - dampingFactor`, or dropped. */
  function DampedDelta(c: Config, d: Spherical): (r: Spherical)
    ensures !c.enableDamping ==> r == Zero
    ensures c.enableDamping && c.dampingFactor == 0.0 ==> r == d
    ensures c.enableDamping && c.dampingFactor == 1.0 ==> r == Zero
  {
    if c.enableDamping then Scale(d, 1.0 - c.dampingFactor) else Zero
  }

  /** One call of `update`. */
  function Update(st: State): (r: State)
    ensures !r.zoomChanged
    ensures r.spherical == NextSpherical(st.config, st.spherical, st.delta, st.zoomChanged)
    ensures r.delta == DampedDelta(st.config, st.delta)
    ensures r.config == st.config && r.rotateStart == st.rotateStart && r.listeners == st.listeners
  {
    st.(spherical := NextSpherical(st.config, st.spherical, st.delta, st.zoomChanged),
        delta := DampedDelta(st.config, st.delta),
        zoomChanged := false)
  }

  /** `n` frames with no input in between. */
  function Idle(st: State, n: nat): State
  {
    if n == 0 then st else Update(Idle(st, n - 1))
  }

  // ---------------------------------------------------------------------------
  // Dragging

  /** The angle a drag of `distance` pixels turns, normalised by the element's
      height: a drag of the full height at speed 1 is a full turn. */
  function RotateAngle(rotateSpeed: real, distance: real, clientHeight: real): (r: real)
    requires clientHeight > 0.0
    ensures r * clientHeight == 2.0 * Pi * (distance * rotateSpeed)
    ensures distance * rotateSpeed == clientHeight ==> r == 2.0 * Pi
    ensures distance * rotateSpeed > 0.0 <==> r > 0.0
    ensures distance * rotateSpeed == 0.0 <==> r == 0.0
  {
    2.0 * Pi * (distance * rotateSpeed) / clientHeight
  }

  /** `handleMouseMoveRotate`: the angle deltas lose the angle dragged since
      the start point, and the start point moves to the pointer. */
  function HandleMouseMoveRotate(st: State, clientX: real, clientY: real, clientHeight: real): (r: State)
    requires clientHeight > 0.0
    ensures r.rotateStart == Point(clientX, clientY)
    ensures r.delta.theta + RotateAngle(st.config.rotateSpeed, clientX - st.rotateStart.x, clientHeight) == st.delta.theta
    ensures r.delta.phi + RotateAngle(st.config.rotateSpeed, clientY - st.rotateStart.y, clientHeight) == st.delta.phi
    ensures r.delta.radius == st.delta.radius && r.zoomChanged == st.zoomChanged
    ensures r.spherical == st.spherical && r.config == st.config && r.listeners == st.listeners
  {
    var speed := st.config.rotateSpeed;
    var d := st.delta;
    st.(delta := d.(theta := d.theta - RotateAngle(speed, clientX - st.rotateStart.x, clientHeight),
                    phi := d.phi - RotateAngle(speed, clientY - st.rotateStart.y, clientHeight)),
        rotateStart := Point(clientX, clientY))
  }

  /** `onMouseDown`: ignored unless enabled with rotation on; otherwise records
      the start point and registers the move and up listeners. */
  function OnMouseDown(st: State, clientX: real, clientY: real): (r: State)
    ensures !(st.config.enabled && st.config.enableRotate) ==> r == st
    ensures st.config.enabled && st.config.enableRotate ==>
      r.rotateStart == Point(clientX, clientY) && r.listeners.mouseMove && r.listeners.mouseUp
    ensures r.listeners.wheel == st.listeners.wheel && r.listeners.mouseDown == st.listeners.mouseDown
    ensures r.config == st.config && r.spherical == st.spherical
    ensures r.delta == st.delta && r.zoomChanged == st.zoomChanged
  {
    if !st.config.enabled || !st.config.enableRotate then st
    else
      st.(rotateStart := Point(clientX, clientY),
          listeners := st.listeners.(mouseMove := true, mouseUp := true))
  }

  /** `onMouseUp`: unregisters the move and up listeners. */
  function OnMouseUp(st: State): (r: State)
    ensures !r.listeners.mouseMove && !r.listeners.mouseUp
    ensures r.listeners.wheel == st.listeners.wheel && r.listeners.mouseDown == st.listeners.mouseDown
    ensures r.config == st.config && r.spherical == st.spherical && r.delta == st.delta
    ensures r.zoomChanged == st.zoomChanged && r.rotateStart == st.rotateStart
  {
    st.(listeners := st.listeners.(mouseMove := false, mouseUp := false))
  }

  /** `dispose`: unregisters all four listeners, also in the middle of a drag. */
  function Dispose(st: State): (r: State)
    ensures NoListeners(r.listeners) && ListenersValid(r.listeners)
    ensures r.config == st.config && r.spherical == st.spherical && r.delta == st.delta
    ensures r.zoomChanged == st.zoomChanged && r.rotateStart == st.rotateStart
  {
    st.(listeners := Listeners(false, false, false, false))
  }

  // ---------------------------------------------------------------------------
  // Event dispatch

  /** What the DOM does with an event: it reaches the controller's handler only
      while that handler is registered. */
  function Dispatch(st: State, e: Event, clientHeight: real): (r: State)
    requires clientHeight > 0.0
    ensures e.WheelEvent? && !st.listeners.wheel ==> r == st
    ensures e.WheelEvent? && st.listeners.wheel ==> r == HandleMouseWheel(st, e.deltaY)
    ensures e.MouseDownEvent? && !st.listeners.mouseDown ==> r == st
    ensures e.MouseDownEvent? && st.listeners.mouseDown ==> r == OnMouseDown(st, e.clientX, e.clientY)
    ensures e.MouseMoveEvent? && !st.listeners.mouseMove ==> r == st
    ensures e.MouseMoveEvent? && st.listeners.mouseMove ==>
      r == HandleMouseMoveRotate(st, e.clientX, e.clientY, clientHeight)
    ensures e.MouseUpEvent? && !st.listeners.mouseUp ==> r == st
    ensures e.MouseUpEvent? && st.listeners.mouseUp ==> r == OnMouseUp(st)
    ensures NoListeners(st.listeners) ==> r == st
    ensures r.config == st.config
  {
    match e
    case WheelEvent(deltaY) =>
      if st.listeners.wheel then HandleMouseWheel(st, deltaY) else st
    case MouseDownEvent(x, y) =>
      if st.listeners.mouseDown then OnMouseDown(st, x, y) else st
    case MouseMoveEvent(x, y) =>
      if st.listeners.mouseMove then HandleMouseMoveRotate(st, x, y, clientHeight) else st
    case MouseUpEvent =>
      if st.listeners.mouseUp then OnMouseUp(st) else st
  }

  /** Events dispatched one after another, oldest first. */
  function DispatchAll(st: State, events: seq<Event>, clientHeight: real): State
    requires clientHeight > 0.0
    decreases |events|
  {
    if events == [] then st
    else DispatchAll(Dispatch(st, events[0], clientHeight), events[1..], clientHeight)
  }
}
