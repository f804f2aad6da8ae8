/** What the orbit controller guarantees across calls: zoom waits on its flag,
    auto-rotation adds a fixed step, idle frames are a fixed point without
    damping and decay geometrically with it, consecutive drags add up, and a
    disposed controller ignores every event. */
module OrbitProperties {
  import opened Limits
  import opened Orbit

  // ---------------------------------------------------------------------------
  // Zoom

  /** Without a pending zoom the radius delta is ignored: only the old radius
      and the distance limits decide the new radius. */
  lemma ResidualZoomIgnored(c: Config, s: Spherical, d1: Spherical, d2: Spherical)
    ensures NextSpherical(c, s, d1, false).radius == NextSpherical(c, s, d2, false).radius
  {
  }

  /** A pending zoom scales the radius by `1 + 0.1 * delta.radius` whenever the
      result is inside the distance limits. */
  lemma ProportionalZoom(c: Config, s: Spherical, d: Spherical)
    requires Within(Some(c.minDistance), c.maxDistance, s.radius * ZoomFactor(d.radius))
    ensures NextSpherical(c, s, d, true).radius == s.radius * (1.0 + 0.1 * d.radius)
  {
  }

  /** A zoom factor of at most 1 applied at a non-negative minimum distance
      stays at the minimum distance, even when the factor is negative. */
  lemma ZoomInHeldAtMinimum(c: Config, s: Spherical, d: Spherical)
    requires 0.0 <= c.minDistance == s.radius
    requires Ordered(Some(c.minDistance), c.maxDistance)
    requires d.radius <= 0.0
    ensures NextSpherical(c, s, d, true).radius == c.minDistance
  {
    assert s.radius * ZoomFactor(d.radius) == s.radius + 0.1 * (s.radius * d.radius);
    assert s.radius * d.radius <= 0.0;
  }

  /** A frame of the application's loop: the events of the frame, then `update`. */
  function Frame(st: State, events: seq<Event>, clientHeight: real): State
    requires clientHeight > 0.0
  {
    Update(DispatchAll(st, events, clientHeight))
  }

  /** `n` frames, each with one wheel event of the given `deltaY`. */
  function WheelFrames(st: State, deltaY: real, clientHeight: real, n: nat): State
    requires clientHeight > 0.0
  {
    if n == 0 then st
    else Frame(WheelFrames(st, deltaY, clientHeight, n - 1), [WheelEvent(Some(deltaY))], clientHeight)
  }

  /** At the minimum distance, with no outward zoom pending. */
  predicate HeldAtMinimum(st: State)
  {
    0.0 <= st.config.minDistance == st.spherical.radius
    && Ordered(Some(st.config.minDistance), st.config.maxDistance)
    && st.delta.radius <= 0.0
  }

  /** One frame with an inward wheel turn keeps the camera at the minimum. */
  lemma WheelInFrame(st: State, deltaY: real, clientHeight: real)
    requires clientHeight > 0.0 && deltaY >= 0.0
    requires 0.0 <= st.config.zoomSpeed && 0.0 <= st.config.dampingFactor <= 1.0
    requires HeldAtMinimum(st)
    ensures Frame(st, [WheelEvent(Some(deltaY))], clientHeight).config == st.config
    ensures HeldAtMinimum(Frame(st, [WheelEvent(Some(deltaY))], clientHeight))
  {
    var wheeled := Dispatch(st, WheelEvent(Some(deltaY)), clientHeight);
    assert DispatchAll(st, [WheelEvent(Some(deltaY))], clientHeight) == wheeled;
    var z := WheelZoom(Some(deltaY), st.config.zoomSpeed);
    MulNonneg(deltaY, st.config.zoomSpeed);
    assert z <= 0.0;
    assert wheeled.delta.radius <= 0.0 && wheeled.spherical == st.spherical;
    if wheeled.zoomChanged {
      ZoomInHeldAtMinimum(wheeled.config, wheeled.spherical, wheeled.delta);
    }
    var k := 1.0 - st.config.dampingFactor;
    MulNonneg(-wheeled.delta.radius, k);
    assert wheeled.delta.radius * k == -((-wheeled.delta.radius) * k);
  }

  /** Once the camera is at the minimum distance with no outward zoom pending,
      any number of frames of inward wheel turns (`deltaY >= 0`, which this code
      treats as zooming in) keeps it exactly there. */
  lemma {:induction false} WheelInSaturatesAtMinimum(st: State, deltaY: real, clientHeight: real, n: nat)
    requires clientHeight > 0.0 && deltaY >= 0.0
    requires 0.0 <= st.config.zoomSpeed && 0.0 <= st.config.dampingFactor <= 1.0
    requires HeldAtMinimum(st)
    ensures WheelFrames(st, deltaY, clientHeight, n).config == st.config
    ensures WheelFrames(st, deltaY, clientHeight, n).spherical.radius == st.config.minDistance
    ensures HeldAtMinimum(WheelFrames(st, deltaY, clientHeight, n))
  {
    if n > 0 {
      WheelInSaturatesAtMinimum(st, deltaY, clientHeight, n - 1);
      WheelInFrame(WheelFrames(st, deltaY, clientHeight, n - 1), deltaY, clientHeight);
    }
  }

  /** One frame whose inward wheel turn leaves no outward zoom pending and
      brings the zoomed radius down to the minimum distance or below puts the
      camera at the minimum. */
  lemma WheelInReachesMinimum(st: State, deltaY: real, clientHeight: real)
    requires clientHeight > 0.0 && deltaY >= 0.0
    requires st.listeners.wheel && st.config.enabled && st.config.enableZoom
    requires 0.0 <= st.config.zoomSpeed && 0.0 <= st.config.dampingFactor <= 1.0
    requires 0.0 <= st.config.minDistance && Ordered(Some(st.config.minDistance), st.config.maxDistance)
    requires st.delta.radius + WheelZoom(Some(deltaY), st.config.zoomSpeed) <= 0.0
    requires st.spherical.radius * ZoomFactor(st.delta.radius + WheelZoom(Some(deltaY), st.config.zoomSpeed))
             <= st.config.minDistance
    ensures Frame(st, [WheelEvent(Some(deltaY))], clientHeight).config == st.config
    ensures HeldAtMinimum(Frame(st, [WheelEvent(Some(deltaY))], clientHeight))
  {
    var wheeled := HandleMouseWheel(st, Some(deltaY));
    assert [WheelEvent(Some(deltaY))][1..] == [];
    assert DispatchAll(st, [WheelEvent(Some(deltaY))], clientHeight) == wheeled;
    var z := WheelZoom(Some(deltaY), st.config.zoomSpeed);
    MulNonneg(deltaY, st.config.zoomSpeed);
    assert z <= 0.0;
    assert wheeled.zoomChanged && wheeled.delta.radius == st.delta.radius + z;
    var k := 1.0 - st.config.dampingFactor;
    MulNonneg(-wheeled.delta.radius, k);
    assert wheeled.delta.radius * k == -((-wheeled.delta.radius) * k);
  }

  /** Repeated inward wheel turns, the first of which zooms to the minimum
      distance or past it, put the camera at the minimum in the first frame
      and keep it there in every later one. */
  lemma {:induction false} WheelInDrivesToMinimum(st: State, deltaY: real, clientHeight: real, n: nat)
    requires clientHeight > 0.0 && deltaY >= 0.0
    requires st.listeners.wheel && st.config.enabled && st.config.enableZoom
    requires 0.0 <= st.config.zoomSpeed && 0.0 <= st.config.dampingFactor <= 1.0
    requires 0.0 <= st.config.minDistance && Ordered(Some(st.config.minDistance), st.config.maxDistance)
    requires st.delta.radius + WheelZoom(Some(deltaY), st.config.zoomSpeed) <= 0.0
    requires st.spherical.radius * ZoomFactor(st.delta.radius + WheelZoom(Some(deltaY), st.config.zoomSpeed))
             <= st.config.minDistance
    requires n >= 1
    ensures WheelFrames(st, deltaY, clientHeight, n).config == st.config
    ensures WheelFrames(st, deltaY, clientHeight, n).spherical.radius == st.config.minDistance
    ensures HeldAtMinimum(WheelFrames(st, deltaY, clientHeight, n))
  {
    if n == 1 {
      assert WheelFrames(st, deltaY, clientHeight, 1) == Frame(st, [WheelEvent(Some(deltaY))], clientHeight);
      WheelInReachesMinimum(st, deltaY, clientHeight);
    } else {
      WheelInDrivesToMinimum(st, deltaY, clientHeight, n - 1);
      WheelInFrame(WheelFrames(st, deltaY, clientHeight, n - 1), deltaY, clientHeight);
    }
  }

  /** At the maximum distance, with no inward zoom pending. */
  predicate HeldAtMaximum(st: State)
  {
    st.config.maxDistance.Some? && 0.0 <= st.config.maxDistance.value == st.spherical.radius
    && st.config.minDistance <= st.config.maxDistance.value
    && st.delta.radius >= 0.0
  }

  /** At the maximum distance, a flagged zoom factor of at least 1 is clamped
      back to the maximum. */
  lemma ZoomOutHeldAtMaximum(c: Config, s: Spherical, d: Spherical)
    requires c.maxDistance.Some? && 0.0 <= c.maxDistance.value == s.radius
    requires c.minDistance <= c.maxDistance.value
    requires d.radius >= 0.0
    ensures NextSpherical(c, s, d, true).radius == c.maxDistance.value
  {
    assert s.radius * ZoomFactor(d.radius) == s.radius + 0.1 * (s.radius * d.radius);
    MulNonneg(s.radius, d.radius);
  }

  /** One frame with an outward wheel turn keeps the camera at the maximum. */
  lemma WheelOutFrame(st: State, deltaY: real, clientHeight: real)
    requires clientHeight > 0.0 && deltaY <= 0.0
    requires 0.0 <= st.config.zoomSpeed && 0.0 <= st.config.dampingFactor <= 1.0
    requires HeldAtMaximum(st)
    ensures Frame(st, [WheelEvent(Some(deltaY))], clientHeight).config == st.config
    ensures HeldAtMaximum(Frame(st, [WheelEvent(Some(deltaY))], clientHeight))
  {
    var wheeled := Dispatch(st, WheelEvent(Some(deltaY)), clientHeight);
    assert DispatchAll(st, [WheelEvent(Some(deltaY))], clientHeight) == wheeled;
    var z := WheelZoom(Some(deltaY), st.config.zoomSpeed);
    MulNonneg(-deltaY, st.config.zoomSpeed);
    assert z >= 0.0;
    assert wheeled.delta.radius >= 0.0 && wheeled.spherical == st.spherical;
    if wheeled.zoomChanged {
      ZoomOutHeldAtMaximum(wheeled.config, wheeled.spherical, wheeled.delta);
    }
    MulNonneg(wheeled.delta.radius, 1.0 - st.config.dampingFactor);
  }

  /** Once the camera is at the maximum distance with no inward zoom pending,
      any number of frames of outward wheel turns (`deltaY <= 0`, which this
      code treats as zooming out) keeps it exactly there. */
  lemma {:induction false} WheelOutSaturatesAtMaximum(st: State, deltaY: real, clientHeight: real, n: nat)
    requires clientHeight > 0.0 && deltaY <= 0.0
    requires 0.0 <= st.config.zoomSpeed && 0.0 <= st.config.dampingFactor <= 1.0
    requires HeldAtMaximum(st)
    ensures WheelFrames(st, deltaY, clientHeight, n).config == st.config
    ensures WheelFrames(st, deltaY, clientHeight, n).spherical.radius == st.config.maxDistance.value
    ensures HeldAtMaximum(WheelFrames(st, deltaY, clientHeight, n))
  {
    if n > 0 {
      WheelOutSaturatesAtMaximum(st, deltaY, clientHeight, n - 1);
      WheelOutFrame(WheelFrames(st, deltaY, clientHeight, n - 1), deltaY, clientHeight);
    }
  }

  /** One frame whose outward wheel turn leaves no inward zoom pending and
      brings the zoomed radius up to the maximum distance or beyond puts the
      camera at the maximum. */
  lemma WheelOutReachesMaximum(st: State, deltaY: real, clientHeight: real)
    requires clientHeight > 0.0 && deltaY <= 0.0
    requires st.listeners.wheel && st.config.enabled && st.config.enableZoom
    requires 0.0 <= st.config.dampingFactor <= 1.0
    requires st.config.maxDistance.Some? && 0.0 <= st.config.maxDistance.value
    requires st.config.minDistance <= st.config.maxDistance.value
    requires st.delta.radius + WheelZoom(Some(deltaY), st.config.zoomSpeed) >= 0.0
    requires st.spherical.radius * ZoomFactor(st.delta.radius + WheelZoom(Some(deltaY), st.config.zoomSpeed))
             >= st.config.maxDistance.value
    ensures Frame(st, [WheelEvent(Some(deltaY))], clientHeight).config == st.config
    ensures HeldAtMaximum(Frame(st, [WheelEvent(Some(deltaY))], clientHeight))
  {
    var wheeled := HandleMouseWheel(st, Some(deltaY));
    assert [WheelEvent(Some(deltaY))][1..] == [];
    assert DispatchAll(st, [WheelEvent(Some(deltaY))], clientHeight) == wheeled;
    assert wheeled.zoomChanged && wheeled.delta.radius >= 0.0;
    MulNonneg(wheeled.delta.radius, 1.0 - st.config.dampingFactor);
  }

  /** Repeated outward wheel turns, the first of which zooms to the maximum
      distance or past it, put the camera at the maximum in the first frame
      and keep it there in every later one. */
  lemma {:induction false} WheelOutDrivesToMaximum(st: State, deltaY: real, clientHeight: real, n: nat)
    requires clientHeight > 0.0 && deltaY <= 0.0
    requires st.listeners.wheel && st.config.enabled && st.config.enableZoom
    requires 0.0 <= st.config.zoomSpeed && 0.0 <= st.config.dampingFactor <= 1.0
    requires st.config.maxDistance.Some? && 0.0 <= st.config.maxDistance.value
    requires st.config.minDistance <= st.config.maxDistance.value
    requires st.delta.radius + WheelZoom(Some(deltaY), st.config.zoomSpeed) >= 0.0
    requires st.spherical.radius * ZoomFactor(st.delta.radius + WheelZoom(Some(deltaY), st.config.zoomSpeed))
             >= st.config.maxDistance.value
    requires n >= 1
    ensures WheelFrames(st, deltaY, clientHeight, n).config == st.config
    ensures WheelFrames(st, deltaY, clientHeight, n).spherical.radius == st.config.maxDistance.value
    ensures HeldAtMaximum(WheelFrames(st, deltaY, clientHeight, n))
  {
    if n == 1 {
      assert WheelFrames(st, deltaY, clientHeight, 1) == Frame(st, [WheelEvent(Some(deltaY))], clientHeight);
      WheelOutReachesMaximum(st, deltaY, clientHeight);
    } else {
      WheelOutDrivesToMaximum(st, deltaY, clientHeight, n - 1);
      WheelOutFrame(WheelFrames(st, deltaY, clientHeight, n - 1), deltaY, clientHeight);
    }
  }

  // ---------------------------------------------------------------------------
  // Auto-rotation

  /** With no azimuth limits, auto-rotation adds exactly `2 * Pi / 3600 *
      autoRotateSpeed` to the azimuth and changes nothing else. */
  lemma AutoRotateStep(c: Config, s: Spherical, d: Spherical, zoomChanged: bool)
    requires c.minAzimuthAngle.None? && c.maxAzimuthAngle.None?
    ensures NextSpherical(c.(autoRotate := true, enableRotate := true), s, d, zoomChanged).theta
         == NextSpherical(c.(autoRotate := false), s, d, zoomChanged).theta + 2.0 * Pi / 3600.0 * c.autoRotateSpeed
    ensures NextSpherical(c.(autoRotate := true, enableRotate := true), s, d, zoomChanged).phi
         == NextSpherical(c.(autoRotate := false), s, d, zoomChanged).phi
    ensures NextSpherical(c.(autoRotate := true, enableRotate := true), s, d, zoomChanged).radius
         == NextSpherical(c.(autoRotate := false), s, d, zoomChanged).radius
  {
  }

  /** Auto-rotation is off while rotation is disabled. */
  lemma AutoRotateNeedsRotate(c: Config, s: Spherical, d: Spherical, zoomChanged: bool)
    requires !c.enableRotate
    ensures NextSpherical(c.(autoRotate := true), s, d, zoomChanged)
         == NextSpherical(c.(autoRotate := false), s, d, zoomChanged)
  {
  }

  // ---------------------------------------------------------------------------
  // Idle frames

  /** Without damping or auto-rotation, an update with no input since the last
      one changes nothing: the deltas were consumed, the zoom flag cleared and
      every clamp is idempotent. */
  lemma IdleUpdateIsFixedPoint(st: State)
    requires !st.config.enableDamping
    requires !(st.config.autoRotate && st.config.enableRotate)
    ensures Update(Update(st)) == Update(st)
  {
    var c := st.config;
    var once := Update(st);
    var s := once.spherical;
    var t := Clamp(c.minAzimuthAngle, c.maxAzimuthAngle, st.spherical.theta + st.delta.theta);
    var p := Clamp(Some(c.minPolarAngle), Some(c.maxPolarAngle), st.spherical.phi + st.delta.phi);
    ClampIdempotent(c.minAzimuthAngle, c.maxAzimuthAngle, st.spherical.theta + st.delta.theta);
    SafePolarIdempotent(c.minPolarAngle, c.maxPolarAngle, st.spherical.phi + st.delta.phi);
    assert s.theta == t && s.phi == MakeSafe(p);
    assert s.theta + 0.0 == s.theta && s.phi + 0.0 == s.phi;
    ClampIdempotent(Some(c.minDistance), c.maxDistance, if st.zoomChanged then st.spherical.radius * ZoomFactor(st.delta.radius) else st.spherical.radius);
    assert NextSpherical(c, s, Zero, false) == s;
  }

  /** Idle frames keep the configuration, the drag start and the listeners. */
  lemma {:induction false} IdleKeeps(st: State, n: nat)
    ensures Idle(st, n).config == st.config
    ensures Idle(st, n).rotateStart == st.rotateStart && Idle(st, n).listeners == st.listeners
  {
    if n > 0 {
      IdleKeeps(st, n - 1);
    }
  }

  /** The deltas after `n` idle frames, followed without the offset. */
  function DecayedDelta(c: Config, d: Spherical, n: nat): Spherical
  {
    if n == 0 then d else DampedDelta(c, DecayedDelta(c, d, n - 1))
  }

  lemma {:induction false} IdleDeltaIsDecayed(st: State, n: nat)
    ensures Idle(st, n).config == st.config
    ensures Idle(st, n).delta == DecayedDelta(st.config, st.delta, n)
  {
    if n > 0 {
      IdleDeltaIsDecayed(st, n - 1);
    }
  }

  lemma DampedIsScale(c: Config, d: Spherical)
    requires c.enableDamping
    ensures DampedDelta(c, d) == Scale(d, 1.0 - c.dampingFactor)
  {
  }

  /** Scaling twice is scaling by the product. */
  lemma ScaleTwice(d: Spherical, a: real, b: real, ab: real)
    requires ab == b * a
    ensures Scale(Scale(d, a), b) == Scale(d, ab)
  {
    assert d.radius * a * b == d.radius * ab;
    assert d.phi * a * b == d.phi * ab;
    assert d.theta * a * b == d.theta * ab;
  }

  lemma {:induction false} DecayedIsPower(c: Config, d: Spherical, n: nat)
    requires c.enableDamping
    ensures DecayedDelta(c, d, n) == Scale(d, Pow(1.0 - c.dampingFactor, n))
  {
    if n == 0 {
      assert Scale(d, 1.0) == d;
    } else {
      DecayedIsPower(c, d, n - 1);
      DampedIsScale(c, DecayedDelta(c, d, n - 1));
      PowSucc(1.0 - c.dampingFactor, n - 1);
      ScaleTwice(d, Pow(1.0 - c.dampingFactor, n - 1), 1.0 - c.dampingFactor, Pow(1.0 - c.dampingFactor, n));
    }
  }

  /** With damping, `n` idle frames multiply each delta by `(1 - dampingFactor)^n`. */
  lemma IdleDeltaDecays(st: State, n: nat)
    requires st.config.enableDamping
    ensures Idle(st, n).delta == Scale(st.delta, Pow(1.0 - st.config.dampingFactor, n))
  {
    IdleDeltaIsDecayed(st, n);
    DecayedIsPower(st.config, st.delta, n);
  }

  /** Without damping, every delta is zero after the first idle frame. */
  lemma {:induction false} IdleWithoutDampingStops(st: State, n: nat)
    requires !st.config.enableDamping && n >= 1
    ensures Idle(st, n).delta == Zero
  {
    IdleKeeps(st, n - 1);
  }

  /** After the first idle frame the radius no longer moves: a residual radius
      delta has no effect until the next wheel event sets the zoom flag. */
  lemma {:induction false} IdleRadiusSettles(st: State, n: nat)
    requires n >= 1
    ensures Idle(st, n).spherical.radius == Update(st).spherical.radius
    ensures !Idle(st, n).zoomChanged
  {
    if n > 1 {
      IdleRadiusSettles(st, n - 1);
      IdleKeeps(st, n - 1);
      var prev := Idle(st, n - 1);
      ClampIdempotent(Some(st.config.minDistance), st.config.maxDistance,
                      if st.zoomChanged then st.spherical.radius * ZoomFactor(st.delta.radius) else st.spherical.radius);
      assert Idle(st, n) == Update(prev);
    }
  }

  /** Free azimuth, no auto-rotation: an update adds the azimuth delta. */
  lemma UpdateAddsAzimuthDelta(st: State)
    requires !(st.config.autoRotate && st.config.enableRotate)
    requires st.config.minAzimuthAngle.None? && st.config.maxAzimuthAngle.None?
    ensures Update(st).spherical.theta == st.spherical.theta + st.delta.theta
  {
  }

  /** The azimuth after `n` idle frames with free azimuth and no auto-rotation,
      followed without the rest of the offset. */
  function DriftedAzimuth(c: Config, t0: real, d: Spherical, n: nat): real
  {
    if n == 0 then t0 else DriftedAzimuth(c, t0, d, n - 1) + DecayedDelta(c, d, n - 1).theta
  }

  lemma {:induction false} IdleThetaIsDrifted(st: State, n: nat)
    requires !(st.config.autoRotate && st.config.enableRotate)
    requires st.config.minAzimuthAngle.None? && st.config.maxAzimuthAngle.None?
    ensures Idle(st, n).config == st.config
    ensures Idle(st, n).delta == DecayedDelta(st.config, st.delta, n)
    ensures Idle(st, n).spherical.theta == DriftedAzimuth(st.config, st.spherical.theta, st.delta, n)
  {
    if n > 0 {
      IdleThetaIsDrifted(st, n - 1);
      UpdateAddsAzimuthDelta(Idle(st, n - 1));
    }
  }

  /** The partial sums `t0 + Term(dt, q, 0) + ... + Term(dt, q, n - 1)`. */
  function Drift(t0: real, dt: real, q: real, n: nat): real
  {
    if n == 0 then t0 else Drift(t0, dt, q, n - 1) + Term(dt, q, n - 1)
  }

  /** The term `dt * q^k` of the sum, built up one factor at a time the way
      damping builds it. */
  function Term(dt: real, q: real, k: nat): real
  {
    if k == 0 then dt else Term(dt, q, k - 1) * q
  }

  /** The terms are the powers of the ratio. */
  lemma {:induction false} TermIsPower(dt: real, q: real, k: nat)
    ensures Term(dt, q, k) == dt * Pow(q, k)
  {
    if k > 0 {
      TermIsPower(dt, q, k - 1);
      PowSucc(q, k - 1);
      assert (dt * Pow(q, k - 1)) * q == dt * (q * Pow(q, k - 1));
    }
  }

  /** With damping, each angle delta after `k` idle frames is the `k`-th term
      of its geometric sum. */
  lemma {:induction false} DecayedIsTerm(c: Config, d: Spherical, k: nat)
    requires c.enableDamping
    ensures DecayedDelta(c, d, k).theta == Term(d.theta, 1.0 - c.dampingFactor, k)
    ensures DecayedDelta(c, d, k).phi == Term(d.phi, 1.0 - c.dampingFactor, k)
  {
    if k > 0 {
      DecayedIsTerm(c, d, k - 1);
      DampedIsScale(c, DecayedDelta(c, d, k - 1));
    }
  }

  /** With damping, `DriftedAzimuth` is a partial geometric sum with ratio
      `1 - dampingFactor`; under no azimuth limits and no auto-rotation it is
      the azimuth after `n` idle frames (`IdleThetaIsDrifted`). */
  lemma {:induction false} DriftedIsDrift(c: Config, t0: real, d: Spherical, n: nat)
    requires c.enableDamping
    ensures DriftedAzimuth(c, t0, d, n) == Drift(t0, d.theta, 1.0 - c.dampingFactor, n)
  {
    if n > 0 {
      DriftedIsDrift(c, t0, d, n - 1);
      DecayedIsTerm(c, d, n - 1);
    }
  }

  /** For a nonnegative ratio every term has the sign of `dt`. */
  lemma {:induction false} TermSign(dt: real, q: real, k: nat)
    requires q >= 0.0
    ensures dt >= 0.0 ==> Term(dt, q, k) >= 0.0
    ensures dt <= 0.0 ==> Term(dt, q, k) <= 0.0
  {
    if k > 0 {
      TermSign(dt, q, k - 1);
      var x := Term(dt, q, k - 1);
      if dt >= 0.0 {
        MulNonneg(x, q);
      } else {
        MulNonneg(-x, q);
        assert x * q == -((-x) * q);
      }
    }
  }

  /** The algebra of one step of the closed form. */
  lemma GeometricStep(t0: real, t: real, tn: real, dt: real, f: real, x: real, xn: real)
    requires t * f == t0 * f + dt - x
    requires tn == t + x && xn == x * (1.0 - f)
    ensures tn * f == t0 * f + dt - xn
  {
    assert (t + x) * f == t * f + x * f;
    assert x * (1.0 - f) == x - x * f;
  }

  /** The closed form of the sum: `Drift * f == t0 * f + dt - dt * q^n` for
      `q = 1 - f`, with `dt * q^n` the next term. */
  lemma {:induction false} DriftGeometric(t0: real, dt: real, f: real, n: nat)
    ensures Drift(t0, dt, 1.0 - f, n) * f == t0 * f + dt - Term(dt, 1.0 - f, n)
  {
    if n > 0 {
      DriftGeometric(t0, dt, f, n - 1);
      GeometricStep(t0, Drift(t0, dt, 1.0 - f, n - 1), Drift(t0, dt, 1.0 - f, n), dt, f,
                    Term(dt, 1.0 - f, n - 1), Term(dt, 1.0 - f, n));
    }
  }

  /** The algebra of the bound: with `t * f` short of `limit * f` by an amount
      of the sign of `dt`, `t` stays on the near side of the limit. */
  lemma GeometricBound(t0: real, t: real, dt: real, f: real, x: real)
    requires 0.0 < f && t * f == t0 * f + dt - x
    requires dt >= 0.0 ==> x >= 0.0
    requires dt <= 0.0 ==> x <= 0.0
    ensures dt >= 0.0 ==> t <= t0 + dt / f
    ensures dt <= 0.0 ==> t >= t0 + dt / f
  {
    var limit := t0 + dt / f;
    assert limit * f == t0 * f + dt;
    var above := t - limit;
    var below := limit - t;
    assert above * f == -x;
    assert below * f == x;
    assert t * f - limit * f == -x;
    assert limit * f - t * f == x;
    if dt >= 0.0 && above > 0.0 {
      MulPos(above, f);
      assert false;
    }
    if dt <= 0.0 && below > 0.0 {
      MulPos(below, f);
      assert false;
    }
  }

  /** For a ratio in [0, 1] each step moves the sum in the direction of `dt`. */
  lemma DriftStep(t0: real, dt: real, q: real, n: nat)
    requires 0.0 <= q
    ensures dt >= 0.0 ==> Drift(t0, dt, q, n) <= Drift(t0, dt, q, n + 1)
    ensures dt <= 0.0 ==> Drift(t0, dt, q, n) >= Drift(t0, dt, q, n + 1)
  {
    TermSign(dt, q, n);
  }

  /** For `0 < f <= 1` the partial sums never pass the limit `t0 + dt / f`. */
  lemma DriftBounded(t0: real, dt: real, f: real, n: nat)
    requires 0.0 < f <= 1.0
    ensures dt >= 0.0 ==> Drift(t0, dt, 1.0 - f, n) <= t0 + dt / f
    ensures dt <= 0.0 ==> Drift(t0, dt, 1.0 - f, n) >= t0 + dt / f
  {
    TermSign(dt, 1.0 - f, n);
    DriftGeometric(t0, dt, f, n);
    GeometricBound(t0, Drift(t0, dt, 1.0 - f, n), dt, f, Term(dt, 1.0 - f, n));
  }

  /** Free azimuth, no auto-rotation, damping factor in (0, 1]: idle frames move the azimuth
      monotonically in the direction of its delta and never beyond
      `theta + delta.theta / dampingFactor`, so the motion converges. */
  lemma IdleThetaConverges(st: State, n: nat)
    requires st.config.enableDamping && !(st.config.autoRotate && st.config.enableRotate)
    requires st.config.minAzimuthAngle.None? && st.config.maxAzimuthAngle.None?
    requires 0.0 < st.config.dampingFactor <= 1.0
    ensures st.delta.theta >= 0.0 ==>
      Idle(st, n).spherical.theta <= Idle(st, n + 1).spherical.theta
      <= st.spherical.theta + st.delta.theta / st.config.dampingFactor
    ensures st.delta.theta <= 0.0 ==>
      Idle(st, n).spherical.theta >= Idle(st, n + 1).spherical.theta
      >= st.spherical.theta + st.delta.theta / st.config.dampingFactor
  {
    IdleThetaIsDrifted(st, n);
    IdleThetaIsDrifted(st, n + 1);
    DriftedIsDrift(st.config, st.spherical.theta, st.delta, n);
    DriftedIsDrift(st.config, st.spherical.theta, st.delta, n + 1);
    var f := st.config.dampingFactor;
    DriftStep(st.spherical.theta, st.delta.theta, 1.0 - f, n);
    DriftBounded(st.spherical.theta, st.delta.theta, f, n + 1);
  }

  /** With damping, a factor of at most 1 and no auto-rotation, idle frames
      after the first move the azimuth monotonically in the direction of its
      delta, under any azimuth limits.  The first frame is the exception: an
      azimuth outside the limits is clamped back against its delta. */
  lemma IdleThetaMonotone(st: State, n: nat)
    requires st.config.enableDamping && st.config.dampingFactor <= 1.0
    requires !(st.config.autoRotate && st.config.enableRotate)
    requires n >= 1
    ensures st.delta.theta >= 0.0 ==> Idle(st, n).spherical.theta <= Idle(st, n + 1).spherical.theta
    ensures st.delta.theta <= 0.0 ==> Idle(st, n).spherical.theta >= Idle(st, n + 1).spherical.theta
  {
    var c := st.config;
    var before := Idle(st, n - 1);
    var prev := Idle(st, n);
    IdleDeltaIsDecayed(st, n);
    DecayedIsTerm(c, st.delta, n);
    TermSign(st.delta.theta, 1.0 - c.dampingFactor, n);
    IdleKeeps(st, n - 1);
    var x := before.spherical.theta + before.delta.theta;
    assert prev.spherical.theta == Clamp(c.minAzimuthAngle, c.maxAzimuthAngle, x);
    ClampIdempotent(c.minAzimuthAngle, c.maxAzimuthAngle, x);
    var y := prev.spherical.theta + prev.delta.theta;
    assert Idle(st, n + 1).spherical.theta == Clamp(c.minAzimuthAngle, c.maxAzimuthAngle, y);
    if st.delta.theta >= 0.0 {
      ClampMono(c.minAzimuthAngle, c.maxAzimuthAngle, prev.spherical.theta, y);
    }
    if st.delta.theta <= 0.0 {
      ClampMono(c.minAzimuthAngle, c.maxAzimuthAngle, y, prev.spherical.theta);
    }
  }

  /** With damping and a factor of at most 1, idle frames after the first move
      the polar angle monotonically in the direction of its delta.  The first
      frame is the exception: a polar angle outside [Eps, Pi - Eps] or the
      polar limits is clamped back against its delta. */
  lemma IdlePhiMonotone(st: State, n: nat)
    requires st.config.enableDamping && st.config.dampingFactor <= 1.0
    requires n >= 1
    ensures st.delta.phi >= 0.0 ==> Idle(st, n).spherical.phi <= Idle(st, n + 1).spherical.phi
    ensures st.delta.phi <= 0.0 ==> Idle(st, n).spherical.phi >= Idle(st, n + 1).spherical.phi
  {
    var c := st.config;
    var before := Idle(st, n - 1);
    var prev := Idle(st, n);
    IdleDeltaIsDecayed(st, n);
    DecayedIsTerm(c, st.delta, n);
    TermSign(st.delta.phi, 1.0 - c.dampingFactor, n);
    IdleKeeps(st, n - 1);
    var x := before.spherical.phi + before.delta.phi;
    assert prev.spherical.phi == MakeSafe(Clamp(Some(c.minPolarAngle), Some(c.maxPolarAngle), x));
    SafePolarIdempotent(c.minPolarAngle, c.maxPolarAngle, x);
    var y := prev.spherical.phi + prev.delta.phi;
    assert Idle(st, n + 1).spherical.phi == MakeSafe(Clamp(Some(c.minPolarAngle), Some(c.maxPolarAngle), y));
    if st.delta.phi >= 0.0 {
      SafePolarMono(c.minPolarAngle, c.maxPolarAngle, prev.spherical.phi, y);
    }
    if st.delta.phi <= 0.0 {
      SafePolarMono(c.minPolarAngle, c.maxPolarAngle, y, prev.spherical.phi);
    }
  }

  /** `|y| <= |x|` for `y = x * k` whenever `|k| <= 1`. */
  lemma MulShrinks(x: real, k: real, y: real)
    requires -1.0 <= k <= 1.0 && y == x * k
    ensures Abs(y) <= Abs(x)
  {
    var a := Abs(x);
    MulNonneg(a, 1.0 - k);
    MulNonneg(a, 1.0 + k);
    assert a * (1.0 - k) == a - a * k;
    assert a * (1.0 + k) == a + a * k;
    assert y == a * k || y == -(a * k);
  }

  /** Scaling by a factor of magnitude at most 1 grows no component. */
  lemma ScaleShrinks(d: Spherical, k: real)
    requires -1.0 <= k <= 1.0
    ensures Abs(Scale(d, k).radius) <= Abs(d.radius)
    ensures Abs(Scale(d, k).phi) <= Abs(d.phi)
    ensures Abs(Scale(d, k).theta) <= Abs(d.theta)
  {
    var e := Scale(d, k);
    MulShrinks(d.radius, k, e.radius);
    MulShrinks(d.phi, k, e.phi);
    MulShrinks(d.theta, k, e.theta);
  }

  /** With damping factor in [0, 2] (so for any factor in [0, 1)) no delta
      grows in magnitude across an update. */
  lemma DampingNeverGrows(c: Config, d: Spherical)
    requires c.enableDamping && 0.0 <= c.dampingFactor <= 2.0
    ensures Abs(DampedDelta(c, d).radius) <= Abs(d.radius)
    ensures Abs(DampedDelta(c, d).phi) <= Abs(d.phi)
    ensures Abs(DampedDelta(c, d).theta) <= Abs(d.theta)
  {
    DampedIsScale(c, d);
    ScaleShrinks(d, 1.0 - c.dampingFactor);
  }

  /** With damping factor in [0, 1] no delta grows from one idle frame to the next. */
  lemma IdleDeltasShrink(st: State, n: nat)
    requires st.config.enableDamping && 0.0 <= st.config.dampingFactor <= 1.0
    ensures Abs(Idle(st, n + 1).delta.theta) <= Abs(Idle(st, n).delta.theta)
    ensures Abs(Idle(st, n + 1).delta.phi) <= Abs(Idle(st, n).delta.phi)
    ensures Abs(Idle(st, n + 1).delta.radius) <= Abs(Idle(st, n).delta.radius)
  {
    IdleKeeps(st, n);
    DampingNeverGrows(st.config, Idle(st, n).delta);
  }

  /** With damping factor in [0, 1] no delta, after any number of idle frames,
      is larger in magnitude than it was at the start. */
  lemma IdleDeltaBounded(st: State, n: nat)
    requires st.config.enableDamping && 0.0 <= st.config.dampingFactor <= 1.0
    ensures Abs(Idle(st, n).delta.theta) <= Abs(st.delta.theta)
    ensures Abs(Idle(st, n).delta.phi) <= Abs(st.delta.phi)
    ensures Abs(Idle(st, n).delta.radius) <= Abs(st.delta.radius)
  {
    var p := Pow(1.0 - st.config.dampingFactor, n);
    IdleDeltaDecays(st, n);
    PowUnit(1.0 - st.config.dampingFactor, n);
    ScaleShrinks(st.delta, p);
  }

  // ---------------------------------------------------------------------------
  // Dragging

  /** The angle of a drag is additive in the distance dragged. */
  lemma RotateAngleAdds(speed: real, a: real, b: real, clientHeight: real)
    requires clientHeight > 0.0
    ensures RotateAngle(speed, a, clientHeight) + RotateAngle(speed, b, clientHeight)
         == RotateAngle(speed, a + b, clientHeight)
  {
    var ra := RotateAngle(speed, a, clientHeight);
    var rb := RotateAngle(speed, b, clientHeight);
    var rab := RotateAngle(speed, a + b, clientHeight);
    assert (a + b) * speed == a * speed + b * speed;
    assert (ra + rb) * clientHeight == rab * clientHeight;
  }

  /** Two pointer moves in one drag have the effect of one move to the second
      point: each move is measured from the previous one, so they add up. */
  lemma ConsecutiveMovesAddUp(st: State, x1: real, y1: real, x2: real, y2: real, clientHeight: real)
    requires clientHeight > 0.0
    ensures HandleMouseMoveRotate(HandleMouseMoveRotate(st, x1, y1, clientHeight), x2, y2, clientHeight)
         == HandleMouseMoveRotate(st, x2, y2, clientHeight)
  {
    var speed := st.config.rotateSpeed;
    RotateAngleAdds(speed, x1 - st.rotateStart.x, x2 - x1, clientHeight);
    RotateAngleAdds(speed, y1 - st.rotateStart.y, y2 - y1, clientHeight);
    assert (x1 - st.rotateStart.x) + (x2 - x1) == x2 - st.rotateStart.x;
    assert (y1 - st.rotateStart.y) + (y2 - y1) == y2 - st.rotateStart.y;
  }

  /** A wheel event without `deltaY` acts like one with `deltaY == 0`. */
  lemma WheelWithoutDelta(st: State)
    ensures HandleMouseWheel(st, None) == HandleMouseWheel(st, Some(0.0))
  {
  }

  // ---------------------------------------------------------------------------
  // Listener lifecycle

  /** Every transition keeps the registrations paired. */
  lemma DispatchKeepsListenersValid(st: State, e: Event, clientHeight: real)
    requires clientHeight > 0.0 && ListenersValid(st.listeners)
    ensures ListenersValid(Dispatch(st, e, clientHeight).listeners)
    ensures ListenersValid(Update(st).listeners)
    ensures ListenersValid(Dispose(st).listeners)
  {
  }

  lemma {:induction false} DispatchAllKeepsListenersValid(st: State, events: seq<Event>, clientHeight: real)
    requires clientHeight > 0.0 && ListenersValid(st.listeners)
    ensures ListenersValid(DispatchAll(st, events, clientHeight).listeners)
    decreases |events|
  {
    if events != [] {
      DispatchKeepsListenersValid(st, events[0], clientHeight);
      DispatchAllKeepsListenersValid(Dispatch(st, events[0], clientHeight), events[1..], clientHeight);
    }
  }

  /** Disposing twice is disposing once. */
  lemma DisposeIdempotent(st: State)
    ensures Dispose(Dispose(st)) == Dispose(st)
  {
  }

  /** After `dispose`, no sequence of dispatched events changes anything. */
  lemma {:induction false} DisposedIgnoresEvents(st: State, events: seq<Event>, clientHeight: real)
    requires clientHeight > 0.0
    ensures DispatchAll(Dispose(st), events, clientHeight) == Dispose(st)
    decreases |events|
  {
    if events != [] {
      assert Dispatch(Dispose(st), events[0], clientHeight) == Dispose(st);
      DisposedIgnoresEvents(st, events[1..], clientHeight);
    }
  }

  /** Once the button is released, further pointer moves are not delivered. */
  lemma MouseUpEndsDrag(st: State, x: real, y: real, clientHeight: real)
    requires clientHeight > 0.0
    ensures Dispatch(OnMouseUp(st), MouseMoveEvent(x, y), clientHeight) == OnMouseUp(st)
  {
  }

  /** A press while disabled or with rotation off starts no drag: the move
      that follows, wherever it goes, is ignored unless a drag was already
      under way. */
  lemma IgnoredPressStartsNoDrag(st: State, x: real, y: real, x2: real, y2: real, clientHeight: real)
    requires clientHeight > 0.0 && !st.listeners.mouseMove
    requires !(st.config.enabled && st.config.enableRotate)
    ensures DispatchAll(st, [MouseDownEvent(x, y), MouseMoveEvent(x2, y2)], clientHeight) == st
  {
    var es := [MouseDownEvent(x, y), MouseMoveEvent(x2, y2)];
    var rest := [MouseMoveEvent(x2, y2)];
    assert es[0] == MouseDownEvent(x, y) && es[1..] == rest;
    assert Dispatch(st, MouseDownEvent(x, y), clientHeight) == st;
    assert DispatchAll(st, es, clientHeight) == DispatchAll(st, rest, clientHeight);
    assert rest[0] == MouseMoveEvent(x2, y2) && rest[1..] == [];
    assert Dispatch(st, MouseMoveEvent(x2, y2), clientHeight) == st;
    assert DispatchAll(st, rest, clientHeight) == DispatchAll(st, [], clientHeight);
  }
}
