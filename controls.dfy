/** The `OrbitControls` object of orbitcontrols.js: the public configuration
    fields, the closure-held internals (`spherical`, `sphericalDelta`,
    `zoomChanged`, `rotateStart`) and one flag per registered listener, updated
    in place by the handlers and by `update`.  Every method is specified by the
    matching transition of the `Orbit` state machine. */
module Controls {
  import opened Limits
  import Orbit

  class OrbitControls {
    // Public configuration, assigned by the owning application at any time.
    var enabled: bool
    var minDistance: real
    var maxDistance: Option<real>
    var minPolarAngle: real
    var maxPolarAngle: real
    var minAzimuthAngle: Option<real>
    var maxAzimuthAngle: Option<real>
    var enableZoom: bool
    var zoomSpeed: real
    var enableRotate: bool
    var rotateSpeed: real
    var autoRotate: bool
    var autoRotateSpeed: real
    var enableDamping: bool
    var dampingFactor: real

    // Internals.
    var spherical: Orbit.Spherical
    var sphericalDelta: Orbit.Spherical
    var zoomChanged: bool
    var rotateStart: Orbit.Point

    // Registered listeners.
    var wheelListener: bool
    var mouseDownListener: bool
    var mouseMoveListener: bool
    var mouseUpListener: bool

    function Settings(): Orbit.Config
      reads this
    {
      Orbit.Config(enabled, minDistance, maxDistance, minPolarAngle, maxPolarAngle,
                   minAzimuthAngle, maxAzimuthAngle, enableZoom, zoomSpeed,
                   enableRotate, rotateSpeed, autoRotate, autoRotateSpeed,
                   enableDamping, dampingFactor)
    }

    function Registered(): Orbit.Listeners
      reads this
    {
      Orbit.Listeners(wheelListener, mouseDownListener, mouseMoveListener, mouseUpListener)
    }

    /** The whole state of the object as a value of the state machine. */
    function Snapshot(): Orbit.State
      reads this
    {
      Orbit.State(Settings(), spherical, sphericalDelta, zoomChanged, rotateStart, Registered())
    }

    /** Binds to a camera whose offset from the target is `offset`, assigns
        the defaults and registers the wheel and mousedown listeners. */
    constructor(offset: Orbit.Spherical)
      ensures Snapshot() == Orbit.Construct(offset)
      ensures Orbit.ListenersValid(Registered())
    {
      enabled := true;
      minDistance := 0.0;
      maxDistance := None;
      minPolarAngle := 0.0;
      maxPolarAngle := Pi;
      minAzimuthAngle := None;
      maxAzimuthAngle := None;
      enableZoom := true;
      zoomSpeed := 1.0;
      enableRotate := true;
      rotateSpeed := 1.0;
      autoRotate := false;
      autoRotateSpeed := 2.0;
      enableDamping := true;
      dampingFactor := 0.05;
      spherical := offset;
      sphericalDelta := Orbit.Zero;
      zoomChanged := false;
      rotateStart := Orbit.Point(0.0, 0.0);
      wheelListener := true;
      mouseDownListener := true;
      mouseMoveListener := false;
      mouseUpListener := false;
    }

    method HandleMouseWheel(deltaY: Option<real>)
      modifies this
      ensures Snapshot() == Orbit.HandleMouseWheel(old(Snapshot()), deltaY)
    {
      if !enabled || !enableZoom {
        return;
      }
      var delta := 0.0;
      if deltaY.Some? {
        delta := -deltaY.value;
      }
      sphericalDelta := sphericalDelta.(radius := sphericalDelta.radius + delta * 0.01 * zoomSpeed);
      zoomChanged := true;
    }

    /** One frame: the deltas are applied to the offset, then decayed. */
    method Update()
      modifies this
      ensures Snapshot() == Orbit.Update(old(Snapshot()))
      ensures !zoomChanged && minDistance <= spherical.radius
      ensures 0.0 < spherical.phi < Pi
    {
      ApplyDeltas();
      Decay();
    }

    /** The first part of `update`: the new offset is computed, the zoom flag
        cleared. */
    method ApplyDeltas()
      modifies this
      ensures Snapshot() == old(Snapshot()).(
        spherical := Orbit.NextSpherical(old(Settings()), old(spherical), old(sphericalDelta), old(zoomChanged)),
        zoomChanged := false)
    {
      var next := NextOffset();
      spherical := next;
      zoomChanged := false;
    }

    /** The offset `update` computes, step by step in the source's order:
        auto-rotate, add the angle deltas, clamp, make safe, zoom if flagged,
        clamp the radius. */
    method NextOffset() returns (r: Orbit.Spherical)
      ensures r == Orbit.NextSpherical(Settings(), spherical, sphericalDelta, zoomChanged)
    {
      var c, delta := Settings(), sphericalDelta;
      var theta, phi, radius := spherical.theta, spherical.phi, spherical.radius;
      if c.autoRotate && c.enableRotate {
        theta := theta + Orbit.AutoRotationAngle(c.autoRotateSpeed);
      }
      theta := theta + delta.theta;
      phi := phi + delta.phi;
      theta := Clamp(c.minAzimuthAngle, c.maxAzimuthAngle, theta);
      phi := Clamp(Some(c.minPolarAngle), Some(c.maxPolarAngle), phi);
      phi := MakeSafe(phi);
      if zoomChanged {
        radius := radius * Orbit.ZoomFactor(delta.radius);
      }
      radius := Clamp(Some(c.minDistance), c.maxDistance, radius);
      r := Orbit.Spherical(radius, phi, theta);
    }

    /** The last part of `update`: damping decays the deltas, otherwise they
        are reset. */
    method Decay()
      modifies this
      ensures Snapshot() == old(Snapshot()).(delta := Orbit.DampedDelta(old(Settings()), old(sphericalDelta)))
    {
      if enableDamping {
        var k := 1.0 - dampingFactor;
        sphericalDelta := Orbit.Spherical(sphericalDelta.radius * k, sphericalDelta.phi * k,
                                          sphericalDelta.theta * k);
      } else {
        sphericalDelta := Orbit.Spherical(0.0, 0.0, 0.0);
      }
    }

    method HandleMouseMoveRotate(clientX: real, clientY: real, clientHeight: real)
      requires clientHeight > 0.0
      modifies this
      ensures Snapshot() == Orbit.HandleMouseMoveRotate(old(Snapshot()), clientX, clientY, clientHeight)
    {
      var rotateEnd := Orbit.Point(clientX, clientY);
      var theta := sphericalDelta.theta - Orbit.RotateAngle(rotateSpeed, rotateEnd.x - rotateStart.x, clientHeight);
      var phi := sphericalDelta.phi - Orbit.RotateAngle(rotateSpeed, rotateEnd.y - rotateStart.y, clientHeight);
      sphericalDelta := Orbit.Spherical(sphericalDelta.radius, phi, theta);
      rotateStart := rotateEnd;
    }

    method OnMouseDown(clientX: real, clientY: real)
      modifies this
      ensures Snapshot() == Orbit.OnMouseDown(old(Snapshot()), clientX, clientY)
    {
      if !enabled || !enableRotate {
        return;
      }
      rotateStart := Orbit.Point(clientX, clientY);
      mouseMoveListener := true;
      mouseUpListener := true;
    }

    method OnMouseUp()
      modifies this
      ensures Snapshot() == Orbit.OnMouseUp(old(Snapshot()))
    {
      mouseMoveListener := false;
      mouseUpListener := false;
    }

    method Dispose()
      modifies this
      ensures Snapshot() == Orbit.Dispose(old(Snapshot()))
      ensures Orbit.NoListeners(Registered())
    {
      ghost var before := Snapshot();
      mouseDownListener := false;
      wheelListener := false;
      mouseMoveListener := false;
      mouseUpListener := false;
      assert Settings() == before.config;
    }

    /** The DOM delivering one event: the handler runs only while registered. */
    method Dispatch(e: Orbit.Event, clientHeight: real)
      requires clientHeight > 0.0
      modifies this
      ensures Snapshot() == Orbit.Dispatch(old(Snapshot()), e, clientHeight)
    {
      match e
      case WheelEvent(deltaY) =>
        if wheelListener { HandleMouseWheel(deltaY); }
      case MouseDownEvent(x, y) =>
        if mouseDownListener { OnMouseDown(x, y); }
      case MouseMoveEvent(x, y) =>
        if mouseMoveListener { HandleMouseMoveRotate(x, y, clientHeight); }
      case MouseUpEvent =>
        if mouseUpListener { OnMouseUp(); }
    }
  }
}
