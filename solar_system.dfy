/** How the solar-system page uses the controller (script.js): it builds the
    controls around the camera, turns damping and zoom on, limits the camera
    distance to [70, 500] and calls `update` once; after that the animation
    loop calls it on every frame that gets past the planet loop
    (script.js:146-156).  The lemmas follow a drag and a wheel turn
    through that configuration, and pin down the first-zoom discrepancy of
    the constructor. */
module SolarSystem {
  import opened Limits
  import opened Orbit
  import opened OrbitProperties
  import Controls

  /** The constructor's defaults with the page's five assignments on top. */
  predicate PageSettings(c: Config)
  {
    c.enabled && c.minDistance == 70.0 && c.maxDistance == Some(500.0)
    && c.minPolarAngle == 0.0 && c.maxPolarAngle == Pi
    && c.minAzimuthAngle.None? && c.maxAzimuthAngle.None?
    && c.enableZoom && c.zoomSpeed == 1.0 && c.enableRotate && c.rotateSpeed == 1.0
    && !c.autoRotate && c.autoRotateSpeed == 2.0 && c.enableDamping && c.dampingFactor == 0.05
  }

  /** The page's controller right after the set-up's first `update` when the
      pending deltas start at zero, before any input: its settings, the camera
      inside the distance limits, no deltas, no zoom flag and no drag under
      way.  Once input has queued a delta the page does not come back to this
      state: with damping on, a delta only decays by 0.95 per frame and never
      returns to zero. */
  predicate Settled(st: State)
  {
    PageSettings(st.config)
    && 70.0 <= st.spherical.radius <= 500.0
    && st.delta == Zero && !st.zoomChanged
    && st.listeners == Listeners(true, true, false, false)
  }

  /** The controller right after construction and the page's assignments:
      configuration `c`, camera offset `offset`, pending deltas `delta`, the
      wheel and mousedown listeners registered. */
  function Built(offset: Spherical, c: Config, delta: Spherical): State
  {
    State(c, offset, delta, false, Point(0.0, 0.0), Listeners(true, true, false, false))
  }

  /** The assignments after construction replace the configuration and
      nothing else: with the model's constructor nothing is pending, with the
      constructor as written a radius delta of 1 is. */
  lemma BuiltIsConstructed(offset: Spherical, c: Config)
    ensures Built(offset, c, Zero) == Construct(offset).(config := c)
    ensures Built(offset, c, Spherical(1.0, 0.0, 0.0)) == ConstructAsWritten(offset).(config := c)
  {
  }

  /** Damping leaves nothing pending when nothing was. */
  lemma NothingToDamp(c: Config, d: Spherical)
    requires d == Zero
    ensures DampedDelta(c, d) == Zero
  {
  }

  /** The page's construction of the controls and its five assignments. */
  method Configure(offset: Spherical) returns (controls: Controls.OrbitControls)
    ensures fresh(controls)
    ensures PageSettings(controls.Settings())
    ensures controls.Snapshot() == Built(offset, controls.Settings(), Zero)
  {
    controls := new Controls.OrbitControls(offset);
    controls.enableDamping := true;
    controls.dampingFactor := 0.05;
    controls.enableZoom := true;
    controls.minDistance := 70.0;
    controls.maxDistance := Some(500.0);
  }

  /** The whole set-up: construction, the assignments and the first `update`. */
  method SetUpControls(offset: Spherical) returns (controls: Controls.OrbitControls)
    ensures fresh(controls)
    ensures PageSettings(controls.Settings())
    ensures controls.Snapshot() == Update(Built(offset, controls.Settings(), Zero))
  {
    controls := Configure(offset);
    ghost var before := controls.Snapshot();
    controls.Update();
    assert controls.Settings() == before.config;
  }

  /** With the pending deltas starting at zero, after the set-up's first
      `update` the controller is settled, whatever the camera's starting
      offset: the radius has been clamped into [70, 500] and nothing was
      pending.  As written, 0.95 of a radius delta stays pending instead
      (`AsWrittenSetUpLeavesZoomPending`). */
  lemma SetUpSettles(offset: Spherical, c: Config)
    requires PageSettings(c)
    ensures Settled(Update(Built(offset, c, Zero)))
  {
    NothingToDamp(c, Zero);
  }

  /** A press at (400, 300) and a move to (500, 300) on a 600-pixel-high
      canvas queue an azimuth change of `-Pi / 3`: a sixth of the height
      dragged is a sixth of a full turn, and moving the pointer right turns
      the camera the other way.  The next frame applies it and keeps 95% of
      it pending.  Whatever radius delta is pending (the constructor as
      written leaves one) is left as it is by the drag. */
  lemma DragOneSixth(st: State)
    requires PageSettings(st.config) && st.listeners == Listeners(true, true, false, false)
    requires st.delta.theta == 0.0 && st.delta.phi == 0.0
    ensures DispatchAll(st, [MouseDownEvent(400.0, 300.0), MouseMoveEvent(500.0, 300.0)], 600.0).delta
         == Spherical(st.delta.radius, 0.0, -Pi / 3.0)
    ensures Frame(st, [MouseDownEvent(400.0, 300.0), MouseMoveEvent(500.0, 300.0)], 600.0).spherical.theta
         == st.spherical.theta - Pi / 3.0
    ensures Frame(st, [MouseDownEvent(400.0, 300.0), MouseMoveEvent(500.0, 300.0)], 600.0).delta.theta
         == -0.95 * Pi / 3.0
  {
    var es := [MouseDownEvent(400.0, 300.0), MouseMoveEvent(500.0, 300.0)];
    var pressed := OnMouseDown(st, 400.0, 300.0);
    var moved := HandleMouseMoveRotate(pressed, 500.0, 300.0, 600.0);
    assert RotateAngle(1.0, 100.0, 600.0) == Pi / 3.0;
    assert RotateAngle(1.0, 0.0, 600.0) == 0.0;
    assert es[1..] == [MouseMoveEvent(500.0, 300.0)] && es[1..][1..] == [];
    assert DispatchAll(st, es, 600.0) == moved;
    assert moved.delta == Spherical(st.delta.radius, 0.0, -Pi / 3.0);
  }

  /** A frame with one wheel event of `deltaY` = -100 (which this controller
      treats as zooming out) adds 1 to the pending radius delta `r`, so at
      radius 100 it moves the camera to radius `100 * (1.1 + 0.1 * r)`: to 110
      with nothing pending.  The bounds on `r` keep the result inside the
      distance limits. */
  lemma WheelOutByTenPercent(st: State)
    requires PageSettings(st.config) && st.listeners.wheel && st.spherical.radius == 100.0
    requires -4.0 <= st.delta.radius <= 39.0
    ensures Frame(st, [WheelEvent(Some(-100.0))], 600.0).spherical.radius == 110.0 + 10.0 * st.delta.radius
  {
    var wheeled := HandleMouseWheel(st, Some(-100.0));
    assert [WheelEvent(Some(-100.0))][1..] == [];
    assert DispatchAll(st, [WheelEvent(Some(-100.0))], 600.0) == wheeled;
    assert wheeled.delta.radius == st.delta.radius + 1.0;
  }

  /** At radius 100 with a radius delta of at most 2 pending (the as-written
      0.95 included), wheel turns of `deltaY` = 500 (which this controller
      treats as zooming in) take the zoomed radius down to 70 or less, so the
      first frame already lands on the minimum distance 70 and every later
      frame stays there. */
  lemma WheelInToMinimum(st: State, n: nat)
    requires PageSettings(st.config) && st.listeners.wheel
    requires st.spherical.radius == 100.0 && st.delta.radius <= 2.0
    requires n >= 1
    ensures WheelFrames(st, 500.0, 600.0, n).spherical.radius == 70.0
  {
    assert WheelZoom(Some(500.0), 1.0) == -5.0;
    assert 100.0 * ZoomFactor(st.delta.radius - 5.0) == 50.0 + 10.0 * st.delta.radius;
    WheelInDrivesToMinimum(st, 500.0, 600.0, n);
  }

  /** A product of two non-negative factors does not shrink when either grows. */
  lemma ProductGrows(a0: real, b0: real, a: real, b: real)
    requires 0.0 <= a0 <= a && 0.0 <= b0 <= b
    ensures a0 * b0 <= a * b
  {
    MulMono(a0, b0, b);
    MulMono(b, a0, a);
  }

  /** One frame of a wheel turn of `deltaY` = -500 at the page's settings:
      from a radius of at least `r0` with a radius delta of at least `d0 >= 0`
      pending, the camera ends at least at `r0 * (1.5 + 0.1 * d0)` when that
      is within the maximum, and at least `0.95 * (d0 + 5)` stays pending. */
  lemma WheelOutGrows(st: State, r0: real, d0: real)
    requires PageSettings(st.config) && st.listeners.wheel
    requires 0.0 <= r0 <= st.spherical.radius && 0.0 <= d0 <= st.delta.radius
    requires r0 * (1.5 + 0.1 * d0) <= 500.0
    ensures Frame(st, [WheelEvent(Some(-500.0))], 600.0).config == st.config
    ensures Frame(st, [WheelEvent(Some(-500.0))], 600.0).listeners == st.listeners
    ensures Frame(st, [WheelEvent(Some(-500.0))], 600.0).spherical.radius >= r0 * (1.5 + 0.1 * d0)
    ensures Frame(st, [WheelEvent(Some(-500.0))], 600.0).delta.radius >= 0.95 * (d0 + 5.0)
  {
    var wheeled := HandleMouseWheel(st, Some(-500.0));
    assert [WheelEvent(Some(-500.0))][1..] == [];
    assert DispatchAll(st, [WheelEvent(Some(-500.0))], 600.0) == wheeled;
    assert WheelZoom(Some(-500.0), 1.0) == 5.0;
    var d := wheeled.delta.radius;
    assert d == st.delta.radius + 5.0 && wheeled.zoomChanged && wheeled.spherical == st.spherical;
    var low := r0 * (1.5 + 0.1 * d0);
    var zoomed := st.spherical.radius * ZoomFactor(d);
    ProductGrows(r0, 1.5 + 0.1 * d0, st.spherical.radius, ZoomFactor(d));
    assert low <= zoomed;
    var next := Update(wheeled);
    assert next.spherical.radius == Clamp(Some(70.0), Some(500.0), zoomed);
    ClampMono(Some(70.0), Some(500.0), low, zoomed);
    assert next.delta.radius == d * 0.95;
  }

  /** At radius 100 with no inward zoom pending (the as-written 0.95 included),
      the first two frames of wheel turns of `deltaY` = -500 move the camera
      to at least 150, then to at least 296.25, and leave at least 4.75, then
      at least 9.2625 of a radius delta pending. */
  lemma WheelOutClimbs(st: State)
    requires PageSettings(st.config) && st.listeners.wheel
    requires st.spherical.radius == 100.0 && st.delta.radius >= 0.0
    ensures WheelFrames(st, -500.0, 600.0, 1).spherical.radius >= 150.0
    ensures WheelFrames(st, -500.0, 600.0, 1).delta.radius >= 4.75
    ensures WheelFrames(st, -500.0, 600.0, 2).spherical.radius >= 296.25
    ensures WheelFrames(st, -500.0, 600.0, 2).delta.radius >= 9.2625
    ensures WheelFrames(st, -500.0, 600.0, 2).config == st.config
    ensures WheelFrames(st, -500.0, 600.0, 2).listeners.wheel
  {
    var s1 := WheelFrames(st, -500.0, 600.0, 1);
    assert WheelFrames(st, -500.0, 600.0, 0) == st;
    assert s1 == Frame(st, [WheelEvent(Some(-500.0))], 600.0);
    WheelOutGrows(st, 100.0, 0.0);
    WheelOutGrows(s1, 150.0, 4.75);
  }

  /** At radius 100 with no inward zoom pending (the as-written 0.95 included),
      wheel turns of `deltaY` = -500 (which this controller treats as zooming
      out) hold the camera exactly at the maximum distance 500 from the third
      frame on; `WheelOutClimbs` gives the first two frames. */
  lemma {:induction false} WheelOutToMaximum(st: State, n: nat)
    requires PageSettings(st.config) && st.listeners.wheel
    requires st.spherical.radius == 100.0 && st.delta.radius >= 0.0
    requires n >= 3
    ensures WheelFrames(st, -500.0, 600.0, n).config == st.config
    ensures WheelFrames(st, -500.0, 600.0, n).spherical.radius == 500.0
    ensures HeldAtMaximum(WheelFrames(st, -500.0, 600.0, n))
  {
    if n == 3 {
      var s2 := WheelFrames(st, -500.0, 600.0, 2);
      WheelOutClimbs(st);
      var f := ZoomFactor(s2.delta.radius + 5.0);
      assert f >= 2.42625;
      MulMono(296.25, 2.42625, f);
      MulMono(f, 296.25, s2.spherical.radius);
      assert WheelZoom(Some(-500.0), 1.0) == 5.0;
      WheelOutReachesMaximum(s2, -500.0, 600.0);
      assert WheelFrames(st, -500.0, 600.0, 3) == Frame(s2, [WheelEvent(Some(-500.0))], 600.0);
    } else {
      WheelOutToMaximum(st, n - 1);
      WheelOutFrame(WheelFrames(st, -500.0, 600.0, n - 1), -500.0, 600.0);
    }
  }

  // ---------------------------------------------------------------------------
  // The pending radius the constructor leaves behind

  /** As written, the set-up's `update` leaves a camera already inside the
      distance limits where it was, and decays the constructor's pending
      radius delta of 1 to 0.95. */
  lemma AsWrittenSetUpLeavesZoomPending(offset: Spherical, c: Config)
    requires PageSettings(c) && 70.0 <= offset.radius <= 500.0
    ensures Update(Built(offset, c, Spherical(1.0, 0.0, 0.0))).spherical.radius == offset.radius
    ensures Update(Built(offset, c, Spherical(1.0, 0.0, 0.0))).delta == Spherical(0.95, 0.0, 0.0)
    ensures Update(Built(offset, c, Spherical(1.0, 0.0, 0.0))).listeners.wheel
    ensures Update(Built(offset, c, Spherical(1.0, 0.0, 0.0))).config == c
  {
    var d := Spherical(1.0, 0.0, 0.0);
    assert DampedDelta(c, d) == Scale(d, 0.95);
    assert Within(Some(70.0), Some(500.0), offset.radius);
    assert Clamp(Some(70.0), Some(500.0), offset.radius) == offset.radius;
  }

  /** With the page's settings, a radius delta of 0.95 still pending turns a
      wheel event of `deltaY` = 0 into a 9.5% zoom out: the camera moves to
      `zoomed`, the radius times 1.095, when that is within the maximum. */
  lemma PendingZoomFiresOnZeroWheel(st: State, zoomed: real)
    requires PageSettings(st.config) && st.listeners.wheel
    requires 70.0 <= st.spherical.radius && st.delta.radius == 0.95
    requires zoomed == st.spherical.radius * 1.095 && zoomed <= 500.0
    ensures Frame(st, [WheelEvent(Some(0.0))], 600.0).spherical.radius == zoomed
  {
    var wheeled := HandleMouseWheel(st, Some(0.0));
    assert [WheelEvent(Some(0.0))][1..] == [];
    assert DispatchAll(st, [WheelEvent(Some(0.0))], 600.0) == wheeled;
    assert wheeled.delta.radius == 0.95 && wheeled.zoomChanged;
    assert ZoomFactor(0.95) == 1.095;
    assert Within(Some(70.0), Some(500.0), zoomed);
    assert Clamp(Some(70.0), Some(500.0), zoomed) == zoomed;
  }

  /** With the page's settings, a radius delta of 0.95 still pending at
      radius 100 outweighs a wheel event of `deltaY` = 50, which alone would
      zoom in by 5%: the frame moves the camera out to 104.5. */
  lemma PendingZoomReversesWheel(st: State)
    requires PageSettings(st.config) && st.listeners.wheel
    requires st.spherical.radius == 100.0 && st.delta.radius == 0.95
    ensures Frame(st, [WheelEvent(Some(50.0))], 600.0).spherical.radius == 104.5
  {
    var wheeled := HandleMouseWheel(st, Some(50.0));
    assert [WheelEvent(Some(50.0))][1..] == [];
    assert DispatchAll(st, [WheelEvent(Some(50.0))], 600.0) == wheeled;
    assert WheelZoom(Some(50.0), 1.0) == -0.5;
    assert wheeled.delta.radius == 0.45 && wheeled.zoomChanged;
    assert 100.0 * ZoomFactor(0.45) == 104.5;
    assert Clamp(Some(70.0), Some(500.0), 104.5) == 104.5;
  }

  /** As written, a wheel event that asks for no zoom at all (`deltaY` = 0)
      after the set-up still zooms the camera out by 9.5% on the next frame,
      for any starting radius in [70, 500 / 1.095] (the page's camera, at
      about 201.56, included): the constructor's `Spherical()` left a pending
      radius delta of 1, which the set-up's `update` only decayed to 0.95. */
  lemma ZeroWheelZoomsAsWritten(offset: Spherical, c: Config)
    requires PageSettings(c) && 70.0 <= offset.radius && offset.radius * 1.095 <= 500.0
    ensures Frame(Update(Built(offset, c, Spherical(1.0, 0.0, 0.0))), [WheelEvent(Some(0.0))], 600.0).spherical.radius
         == offset.radius * 1.095
  {
    AsWrittenSetUpLeavesZoomPending(offset, c);
    PendingZoomFiresOnZeroWheel(Update(Built(offset, c, Spherical(1.0, 0.0, 0.0))), offset.radius * 1.095);
  }

  /** Once nothing is pending, nothing becomes pending however many frames
      pass before the next input, whatever the configuration; with the
      model's constructor that holds from the start. */
  lemma {:induction false} NothingPendingStays(st: State, n: nat)
    requires st.delta == Zero && !st.zoomChanged
    ensures Idle(st, n).delta == Zero && !Idle(st, n).zoomChanged
  {
    if n > 0 {
      NothingPendingStays(st, n - 1);
      IdleKeeps(st, n - 1);
      NothingToDamp(st.config, Idle(st, n - 1).delta);
    }
  }

  /** With nothing pending, a wheel event without movement (`deltaY` absent or
      0) leaves the radius where the distance limits already hold it. */
  lemma ZeroWheelKeepsRadius(st: State, deltaY: Option<real>)
    requires st.delta.radius == 0.0
    requires deltaY.None? || deltaY.value == 0.0
    ensures Update(HandleMouseWheel(st, deltaY)).spherical.radius
         == Clamp(Some(st.config.minDistance), st.config.maxDistance, st.spherical.radius)
  {
    var wheeled := HandleMouseWheel(st, deltaY);
    assert wheeled.delta.radius == 0.0;
    assert st.spherical.radius * ZoomFactor(0.0) == st.spherical.radius;
  }

  /** In the corrected set-up the same zero wheel event leaves the radius
      unchanged. */
  lemma ZeroWheelKeepsRadiusInScene(st: State)
    requires Settled(st)
    ensures Frame(st, [WheelEvent(Some(0.0))], 600.0).spherical.radius == st.spherical.radius
  {
    assert [WheelEvent(Some(0.0))][1..] == [];
    assert DispatchAll(st, [WheelEvent(Some(0.0))], 600.0) == HandleMouseWheel(st, Some(0.0));
    ZeroWheelKeepsRadius(st, Some(0.0));
  }

  /** The corrected counterpart of `ZeroWheelZoomsAsWritten`: with the pending
      deltas starting at zero, the same zero wheel event after the set-up
      leaves the camera where the set-up put it. */
  lemma ZeroWheelKeepsRadiusAfterSetUp(offset: Spherical, c: Config)
    requires PageSettings(c)
    ensures Frame(Update(Built(offset, c, Zero)), [WheelEvent(Some(0.0))], 600.0).spherical.radius
         == Update(Built(offset, c, Zero)).spherical.radius
  {
    SetUpSettles(offset, c);
    ZeroWheelKeepsRadiusInScene(Update(Built(offset, c, Zero)));
  }
}
