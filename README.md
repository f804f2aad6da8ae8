# Orbit camera controller of the solar-system page

This project models `OrbitControls` in `orbitcontrols.js` and proves properties of the model. `OrbitControls` is the camera controller of a browser solar-system scene. It turns wheel turns and mouse drags into orbital motion of the camera around a fixed target. It keeps the following state:

- the camera's spherical offset from the target (`radius`, polar angle `phi`, azimuth `theta`);
- an accumulator of pending changes (`sphericalDelta`);
- a `zoomChanged` flag;
- the drag start point `rotateStart`;
- which DOM listeners are registered.

The handlers only add to the pending changes. Once per frame, `update` applies them in a fixed order:

1. the auto-rotation step;
2. the angle deltas;
3. the azimuth and polar clamps, then `makeSafe`;
4. the zoom, only when flagged;
5. the distance clamp;
6. damping of the pending changes, or their reset when damping is off.

The model has five modules:

- `Limits`: the numeric building blocks.
  - Infinite bounds are written as `Option<real>`.
  - `Math.max(lo, Math.min(hi, x))` becomes `Clamp`.
  - three.js `Spherical.makeSafe` becomes `MakeSafe`: a clamp of `phi` into [Eps, Pi - Eps], with Eps = 0.000001.
  - Pi is the decimal `Math.PI`.
  - All arithmetic is exact `real`.
- `Orbit`: the controller as a pure state machine. Each handler and `update` is a function from the old state to the new one. This is the specification.
- `Controls`: the `OrbitControls` object as a Dafny class.
  - Its fields are the configuration, the closure-held internals and one flag per listener.
  - Its methods change `this`.
  - The postcondition of each handler, of `Update`, of `Dispose` and of `Dispatch` ties the new state to the matching `Orbit` transition of the old state: `Snapshot() == Orbit.X(old(Snapshot()))`. The two halves of `Update`, `ApplyDeltas` and `Decay`, state which fields of the old state they replace and with what.
- `OrbitProperties`: what the controller guarantees across calls.
  - clamps and bounds;
  - zoom waiting on its flag;
  - geometric decay and convergence of idle frames;
  - drags adding up;
  - the listener lifecycle.
- `SolarSystem`: the way `script.js` uses the controller.
  - It constructs the controls.
  - It assigns damping 0.05, zoom on and distance limits 70 and 500.
  - It calls `update` once. After that, `update` runs on every animation frame that gets past the planet loop (script.js:146-156).
  - Lemmas follow a drag and wheel turns through that configuration.

The camera's Cartesian position is not part of the state. The model takes the three.js conversions around `update` to be exact inverses of each other: `setFromVector3` and `setFromSpherical`, the up-axis quaternion, and `lookAt`. The spherical offset is therefore carried from one update to the next.

The wheel handler's direction, as the code has it:

- A wheel event adds `-deltaY * 0.01 * zoomSpeed` to the radius delta. This is proportional to `deltaY`, not only to its sign.
- The frame's zoom factor is `1 + 0.1 * (pending radius delta + wheel's radius delta)`. So a pending radius delta of the other sign that outweighs the wheel turn reverses its direction. `SolarSystem.PendingZoomReversesWheel` shows the as-written 0.95 pending at radius 100 turning a `deltaY` of 50 into a move out to 104.5.
- When no larger radius delta of the other sign is pending, a negative `deltaY` (scrolling up) *increases* the radius, within the distance limits, and moves the camera away. `SolarSystem.WheelOutByTenPercent` shows a `deltaY` of -100 taking radius 100 to 110 when nothing is pending.
- When no larger radius delta of the other sign is pending, a positive `deltaY` decreases the radius, within the distance limits. One whose zoom brings the radius to `minDistance` or below puts the camera at `minDistance`, and later positive `deltaY` keeps it there (`OrbitProperties.WheelInDrivesToMinimum`, `SolarSystem.WheelInToMinimum`).
- In the same way, a negative `deltaY` whose zoom brings the radius to `maxDistance` or beyond puts the camera at `maxDistance`, and later negative `deltaY` keeps it exactly there (`OrbitProperties.WheelOutDrivesToMaximum`). With the page's settings, frames of `deltaY` -500 from radius 100, with no inward zoom pending, reach 500 by the third frame (`SolarSystem.WheelOutToMaximum`).

## Model

| member | source | states |
|---|---|---|
| Limits.Clamp | orbitcontrols.js:78-85 | The result is at least the lower bound. When the bounds are ordered, it lies within them. A value already within is unchanged. A value above or below is moved to that bound. When the bounds cross, the lower bound wins, because `max` is applied last. |
| Limits.ClampIdempotent | orbitcontrols.js:78-85 | Clamping twice with the same bounds is clamping once, for all bounds. |
| Limits.MakeSafe | orbitcontrols.js:80 | `phi` ends in [Eps, Pi - Eps], so strictly between 0 and Pi. A `phi` already in that range is unchanged. |
| Limits.ClampMono | orbitcontrols.js:78-85 | Clamping is monotone, for all bounds: a larger value never comes out smaller. |
| Limits.SafePolarMono | orbitcontrols.js:79-80 | The polar step (clamp to the polar limits, then `makeSafe`) is monotone: a larger polar angle never comes out smaller. |
| Limits.SafePolarIdempotent | orbitcontrols.js:79-80 | The polar step (clamp to the polar limits, then `makeSafe`) is idempotent for all limits, even crossed ones or ones outside [Eps, Pi - Eps]. |
| Orbit.ConstructAsWritten | orbitcontrols.js:12-36 | The constructor as written: the defaults of lines 15-32, the camera offset, a pending radius delta of 1 (three.js `Spherical()` defaults its radius to 1), no zoom flag, only the wheel and mousedown listeners. |
| Orbit.Construct | orbitcontrols.js:12-43 | The constructor with the pending deltas at zero and otherwise the same state, with valid listener registrations. |
| Orbit.WheelZoom | orbitcontrols.js:51-55 | The added radius delta is 0 exactly when `deltaY` is absent or 0, or when `zoomSpeed` is 0. With a positive `zoomSpeed` it is positive exactly when `deltaY` is negative. It equals `-deltaY * zoomSpeed / 100`. |
| Orbit.HandleMouseWheel | orbitcontrols.js:49-57 | When disabled or with zoom off, nothing changes. Otherwise the radius delta grows by `WheelZoom` and the zoom flag is set. The angle deltas, the offset, the configuration, the drag start and the listeners are untouched. |
| Orbit.AutoRotationAngle | orbitcontrols.js:71-73 | At speed 1 a step is 1/3600 of a full turn (one turn a minute at 60 frames per second). A positive speed gives a positive step. |
| Orbit.ZoomFactor | orbitcontrols.js:82 | The factor is 1 exactly for a zero radius delta, and below 1 exactly for a negative one. |
| Orbit.NextSpherical | orbitcontrols.js:71-85 | The new radius is at least `minDistance`, and within [minDistance, maxDistance] when those are ordered, whatever the zoom factor (even a negative one). `theta` is within ordered azimuth limits. `phi` is in [Eps, Pi - Eps], so 0 < phi < Pi, and within Eps of ordered polar limits inside [0, Pi]. Without the zoom flag, the radius is the old radius clamped. |
| Orbit.DampedDelta | orbitcontrols.js:93-99 | Without damping the deltas become zero. With damping, a factor of 0 keeps them and a factor of 1 zeroes them. |
| Orbit.Update | orbitcontrols.js:64-100 | The zoom flag is always cleared. The offset becomes `NextSpherical` and the deltas become `DampedDelta`. Configuration, drag start and listeners are unchanged. |
| Orbit.RotateAngle | orbitcontrols.js:104-109 | The angle times the height is `2 * Pi * distance * rotateSpeed`. Dragging the full height at speed 1 is a full turn. The angle has the sign of `distance * rotateSpeed`. |
| Orbit.HandleMouseMoveRotate | orbitcontrols.js:102-112 | `theta` and `phi` deltas lose the angle dragged since the start point, and the start point becomes the pointer. The radius delta, zoom flag, offset, configuration and listeners are unchanged. |
| Orbit.OnMouseDown | orbitcontrols.js:114-120 | When disabled or with rotation off, nothing changes. Otherwise the press point is recorded and move and up are registered. Wheel and mousedown registrations, offset, deltas and flag are unchanged. |
| Orbit.OnMouseUp | orbitcontrols.js:126-129 | Move and up are unregistered. Everything else is unchanged. |
| Orbit.Dispose | orbitcontrols.js:132-137 | All four listeners are unregistered, also mid-drag. Everything else is unchanged. |
| Orbit.Dispatch | orbitcontrols.js:118-131 | For each kind of event: while its handler is registered the new state is that handler's transition (wheel, mousedown, move or up), and while it is not, the state is unchanged. With nothing registered, nothing changes. No event changes the configuration. |
| Controls.OrbitControls.constructor | orbitcontrols.js:12-43 | The new object's state is `Orbit.Construct` of the camera offset, with valid listener registrations. |
| Controls.OrbitControls.HandleMouseWheel | orbitcontrols.js:49-57 | The object's new state is `Orbit.HandleMouseWheel` of its old state. |
| Controls.OrbitControls.Update | orbitcontrols.js:64-100 | The new state is `Orbit.Update` of the old state. Afterwards the zoom flag is clear, the radius is at least `minDistance`, and 0 < phi < Pi. |
| Controls.OrbitControls.ApplyDeltas | orbitcontrols.js:71-85 | The offset becomes `NextSpherical` of the old configuration, offset, deltas and flag. The flag is cleared. Nothing else changes. |
| Controls.OrbitControls.NextOffset | orbitcontrols.js:71-85 | The offset computed step by step, in the source's order, is `Orbit.NextSpherical` of the current configuration, offset, deltas and flag. |
| Controls.OrbitControls.Decay | orbitcontrols.js:93-99 | The deltas become `DampedDelta` of the old ones. Nothing else changes. |
| Controls.OrbitControls.HandleMouseMoveRotate | orbitcontrols.js:102-112 | The new state is `Orbit.HandleMouseMoveRotate` of the old one. |
| Controls.OrbitControls.OnMouseDown | orbitcontrols.js:114-120 | The new state is `Orbit.OnMouseDown` of the old one. |
| Controls.OrbitControls.OnMouseUp | orbitcontrols.js:126-129 | The new state is `Orbit.OnMouseUp` of the old one. |
| Controls.OrbitControls.Dispose | orbitcontrols.js:132-137 | The new state is `Orbit.Dispose` of the old one, and no listener is left. |
| Controls.OrbitControls.Dispatch | orbitcontrols.js:118-131 | The new state is `Orbit.Dispatch` of the old one. |
| OrbitProperties.ResidualZoomIgnored | orbitcontrols.js:81-85 | Without the zoom flag, the new radius does not depend on the radius delta. |
| OrbitProperties.ProportionalZoom | orbitcontrols.js:81-85 | With the flag, when the zoomed radius is within the limits, the radius is multiplied by `1 + 0.1 * delta.radius`. |
| OrbitProperties.ZoomInHeldAtMinimum | orbitcontrols.js:81-85 | At a minimum distance of 0 or more, with the bounds ordered, a zoom factor of at most 1 (even a negative one) leaves the radius at the minimum. A negative minimum is excluded: there a factor in (0, 1) gives a product above the minimum that the clamp keeps. |
| OrbitProperties.WheelInFrame | orbitcontrols.js:49-99 | One frame with a wheel event of `deltaY >= 0` keeps a camera held at the minimum distance there. No outward delta becomes pending, and the configuration is unchanged. |
| OrbitProperties.WheelInSaturatesAtMinimum | orbitcontrols.js:49-99 | Once the camera is held at the minimum, any number of such frames leaves the radius exactly at `minDistance`. |
| OrbitProperties.WheelInReachesMinimum | orbitcontrols.js:49-99 | One frame with a wheel event of `deltaY >= 0` whose added zoom leaves no outward zoom pending, and whose zoomed radius is at most `minDistance`, puts the camera at `minDistance` with no outward zoom pending. An outward delta pending beforehand is allowed when the wheel turn outweighs it. The configuration is unchanged. |
| OrbitProperties.WheelInDrivesToMinimum | orbitcontrols.js:49-99 | With such a first wheel event, every one of `n >= 1` frames of wheel events `deltaY >= 0` ends with the camera at `minDistance`. |
| OrbitProperties.ZoomOutHeldAtMaximum | orbitcontrols.js:81-85 | At the maximum distance, a flagged zoom factor of at least 1 leaves the radius at the maximum. |
| OrbitProperties.WheelOutFrame | orbitcontrols.js:49-99 | One frame with a wheel event of `deltaY <= 0` keeps a camera held at the maximum distance there. No inward zoom becomes pending and the configuration is unchanged. |
| OrbitProperties.WheelOutSaturatesAtMaximum | orbitcontrols.js:49-99 | Once the camera is held at the maximum, any number of such frames leaves the radius exactly at `maxDistance`. |
| OrbitProperties.WheelOutReachesMaximum | orbitcontrols.js:49-99 | One frame with a wheel event of `deltaY <= 0` that leaves no inward zoom pending, and whose zoomed radius is at least `maxDistance`, puts the camera at `maxDistance` with no inward zoom pending. The configuration is unchanged. |
| OrbitProperties.WheelOutDrivesToMaximum | orbitcontrols.js:49-99 | With such a first wheel event, every one of `n >= 1` frames of wheel events `deltaY <= 0` ends with the camera at `maxDistance`. |
| OrbitProperties.AutoRotateStep | orbitcontrols.js:71-73 | With free azimuth, auto-rotation adds exactly `2 * Pi / 3600 * autoRotateSpeed` to `theta` and leaves `phi` and the radius as they would be without it. |
| OrbitProperties.AutoRotateNeedsRotate | orbitcontrols.js:71 | With rotation disabled, `autoRotate` has no effect. |
| OrbitProperties.IdleUpdateIsFixedPoint | orbitcontrols.js:71-99 | Without damping or auto-rotation, a second `update` with no input in between changes nothing. |
| OrbitProperties.IdleKeeps | orbitcontrols.js:64-100 | Idle frames keep the configuration, the drag start and the listeners. |
| OrbitProperties.IdleDeltaIsDecayed | orbitcontrols.js:93-99 | After `n` idle frames the deltas are those obtained by damping the initial ones `n` times. |
| OrbitProperties.DampedIsScale | orbitcontrols.js:93-96 | With damping, each delta is multiplied by `1 - dampingFactor`. |
| OrbitProperties.DecayedIsPower | orbitcontrols.js:93-96 | Damping `n` times multiplies each delta by `(1 - dampingFactor)^n`. |
| OrbitProperties.IdleDeltaDecays | orbitcontrols.js:93-96 | With damping, `n` idle frames multiply the deltas by `(1 - dampingFactor)^n`. |
| OrbitProperties.IdleWithoutDampingStops | orbitcontrols.js:97-99 | Without damping, every delta is zero after the first idle frame. |
| OrbitProperties.IdleRadiusSettles | orbitcontrols.js:81-85 | After the first idle frame the radius no longer moves: a residual radius delta has no effect until the next wheel event. |
| OrbitProperties.UpdateAddsAzimuthDelta | orbitcontrols.js:75-78 | With free azimuth and no auto-rotation, an update adds the azimuth delta to `theta`. |
| OrbitProperties.IdleThetaIsDrifted | orbitcontrols.js:75-99 | With no azimuth limits and no auto-rotation, after `n` idle frames `theta` is the initial azimuth plus the `n` decayed azimuth deltas. With limits the clamp of line 78 cuts it off, and with auto-rotation line 72 adds a step every frame. |
| OrbitProperties.TermIsPower | orbitcontrols.js:94 | The `k`-th factor-by-factor decay of a value is the value times `q^k`. |
| OrbitProperties.DecayedIsTerm | orbitcontrols.js:94-95 | With damping, the azimuth delta and the polar delta after `k` idle frames are the `k`-th terms of their geometric sums with ratio `1 - dampingFactor`. |
| OrbitProperties.DriftedIsDrift | orbitcontrols.js:75-96 | With damping, `DriftedAzimuth` (the start plus the `n` decayed azimuth deltas) is a partial geometric sum with ratio `1 - dampingFactor`. It is the azimuth after `n` idle frames under the premises of `IdleThetaIsDrifted`: no azimuth limits and no auto-rotation. |
| OrbitProperties.DriftGeometric | orbitcontrols.js:94 | Closed form of that sum: `sum * f == t0 * f + dt - dt * (1 - f)^n`. |
| OrbitProperties.IdleThetaConverges | orbitcontrols.js:75-96 | With free azimuth, no auto-rotation and a damping factor in (0, 1], idle frames move `theta` monotonically in the direction of its delta and never past `theta + delta.theta / dampingFactor`. The momentum comes to rest at a bounded angle. |
| OrbitProperties.IdlePhiMonotone | orbitcontrols.js:76-96 | With damping and a factor of at most 1, every idle frame after the first moves `phi` monotonically in the direction of its delta. Since `phi` stays in [Eps, Pi - Eps], it converges. The first frame is excluded: a clamp can move `phi` against its delta there (a `phi` of Pi with a positive delta drops to Pi - Eps). |
| OrbitProperties.IdleThetaMonotone | orbitcontrols.js:75-96 | With damping, a factor of at most 1 and no auto-rotation, every idle frame after the first moves `theta` monotonically in the direction of its delta, under any azimuth limits. The first frame is excluded: the azimuth clamp can move `theta` against its delta there. |
| OrbitProperties.DampingNeverGrows | orbitcontrols.js:93-96 | With a factor in [0, 2] (so for any factor in [0, 1)), no delta grows in magnitude across an update. |
| OrbitProperties.IdleDeltasShrink | orbitcontrols.js:93-96 | With a factor in [0, 1], no delta grows from one idle frame to the next. |
| OrbitProperties.IdleDeltaBounded | orbitcontrols.js:93-96 | With a factor in [0, 1], after any number of idle frames no delta is larger in magnitude than at the start. |
| OrbitProperties.RotateAngleAdds | orbitcontrols.js:104-108 | The rotation angle is additive in the distance dragged. |
| OrbitProperties.ConsecutiveMovesAddUp | orbitcontrols.js:102-112 | Two pointer moves have the effect of one move to the second point, because each is measured from the previous one. |
| OrbitProperties.WheelWithoutDelta | orbitcontrols.js:51-54 | A wheel event without `deltaY` acts like one with `deltaY` 0. |
| OrbitProperties.DispatchKeepsListenersValid | orbitcontrols.js:114-137 | Every event, `update` and `dispose` keep the registrations paired: move with up, wheel with mousedown, and a drag only while mousedown is registered. |
| OrbitProperties.DispatchAllKeepsListenersValid | orbitcontrols.js:114-137 | Any sequence of events keeps the registrations paired. |
| OrbitProperties.DisposeIdempotent | orbitcontrols.js:132-137 | Disposing twice is disposing once. |
| OrbitProperties.DisposedIgnoresEvents | orbitcontrols.js:132-137 | After `dispose`, no sequence of events changes anything. |
| OrbitProperties.MouseUpEndsDrag | orbitcontrols.js:126-129 | After mouseup, further pointer moves are not delivered. |
| OrbitProperties.IgnoredPressStartsNoDrag | orbitcontrols.js:114-120 | Outside a drag, a press while disabled or with rotation off is ignored, and the following move, to any point, is not delivered: the state is unchanged. |
| SolarSystem.BuiltIsConstructed | script.js:27-33 | The page's assignments after construction replace the configuration and nothing else, both for the model's constructor and for the constructor as written. |
| SolarSystem.Configure | script.js:27-33 | The constructed object carries the page's settings: damping 0.05, zoom on, distances 70 to 500, the other defaults kept. Its state is the constructed state with those settings. |
| SolarSystem.SetUpControls | script.js:27-34 | After the set-up's `update`, the object's state is `Orbit.Update` of the configured state. |
| SolarSystem.SetUpSettles | script.js:27-34 | With the pending deltas starting at zero (the corrected constructor), whatever the camera's starting offset, after the set-up's first `update` the radius is in [70, 500], nothing is pending, and only wheel and mousedown are registered. As written, 0.95 of a radius delta stays pending instead (`SolarSystem.AsWrittenSetUpLeavesZoomPending`). |
| SolarSystem.DragOneSixth | orbitcontrols.js:102-112 | With the page's settings, only wheel and mousedown registered and no angle delta pending, on a 600-pixel-high canvas a press at (400, 300) and a move to (500, 300) queue an azimuth change of `-Pi / 3` and leave the pending radius delta as it was (so the as-written 0.95 too). The next frame turns the camera by that angle and keeps 95% of it pending. |
| SolarSystem.WheelOutByTenPercent | orbitcontrols.js:49-85 | With the page's settings at radius 100 and a radius delta `r` pending (with -4 <= r <= 39, so the result stays inside [70, 500]), a frame with `deltaY` -100 moves the camera to radius `110 + 10 * r`: to 110 with nothing pending. |
| SolarSystem.WheelInToMinimum | orbitcontrols.js:49-85 | With the page's settings at radius 100 and a radius delta of at most 2 pending (the as-written 0.95 included), every one of `n >= 1` frames of wheel events `deltaY` 500 ends with the camera at the minimum distance 70. |
| SolarSystem.WheelOutGrows | orbitcontrols.js:49-99 | With the page's settings, one frame with a wheel event of `deltaY` -500, from a radius of at least `r0` with a radius delta of at least `d0 >= 0` pending, ends at a radius of at least `r0 * (1.5 + 0.1 * d0)` when that is at most 500, and leaves at least `0.95 * (d0 + 5)` pending. |
| SolarSystem.WheelOutClimbs | orbitcontrols.js:49-99 | With the page's settings at radius 100 and no inward zoom pending (the as-written 0.95 included), the first frame with a wheel event of `deltaY` -500 ends at a radius of at least 150 with at least 4.75 pending, and the second at least at 296.25 with at least 9.2625 pending. |
| SolarSystem.WheelOutToMaximum | orbitcontrols.js:49-99 | With the page's settings at radius 100 and no inward zoom pending (the as-written 0.95 included), from the third frame of wheel events `deltaY` -500 on, the camera is held exactly at the maximum distance 500 (`SolarSystem.WheelOutClimbs` gives the first two frames). |
| SolarSystem.AsWrittenSetUpLeavesZoomPending | orbitcontrols.js:36 | With the constructor as written and a camera at any radius in [70, 500], the set-up's `update` keeps the radius where it is and leaves a radius delta of 0.95 pending. |
| SolarSystem.PendingZoomFiresOnZeroWheel | orbitcontrols.js:49-85 | With a radius delta of 0.95 pending at a radius of at least 70, a wheel event of `deltaY` 0 zooms the camera out to the radius times 1.095 when that is at most 500 (109.5 from 100). |
| SolarSystem.PendingZoomReversesWheel | orbitcontrols.js:49-85 | With a radius delta of 0.95 pending at radius 100, a wheel event of `deltaY` 50, which alone would zoom in, moves the camera out to 104.5. |
| SolarSystem.ZeroWheelZoomsAsWritten | orbitcontrols.js:36 | As written, after the page's set-up, a wheel event that asks for no zoom moves the camera from any starting radius `r` in [70, 500 / 1.095] to `r * 1.095`: from 100 to 109.5, and from the page's camera start (script.js:18, radius about 201.56) to about 220.71. |
| SolarSystem.NothingPendingStays | orbitcontrols.js:93-96 | Once nothing is pending, any number of idle frames leave nothing pending and the zoom flag clear. |
| SolarSystem.ZeroWheelKeepsRadius | orbitcontrols.js:49-85 | With no radius delta pending, a wheel event without movement leaves the radius at its clamped old value. |
| SolarSystem.ZeroWheelKeepsRadiusInScene | orbitcontrols.js:49-85 | In a settled page state, a zero wheel event leaves the radius unchanged. |
| SolarSystem.ZeroWheelKeepsRadiusAfterSetUp | orbitcontrols.js:36 | With the pending deltas starting at zero, the same zero wheel event after the set-up leaves the radius where the set-up put it. |

## Left out

- The Cartesian round trip is not modelled. This covers the offset from the camera position and target, the up-axis quaternion, `setFromVector3`, `setFromSpherical` and `lookAt` (orbitcontrols.js:47-48, 65-69, 87-91). The spherical offset is carried over exactly instead.
  - As a result, three things `setFromVector3` does on every update are not captured:
    - the re-normalisation of `theta` into (-Pi, Pi] by `atan2`. With azimuth limits that reach past -Pi or Pi, the source and the model differ. Take limits [2, 4] and `theta` 3.5 after an update: the source reads it back as 3.5 - 2 * Pi, about -2.78, and clamps that to 2 on the next update, so the camera jumps on an idle frame, while the model keeps 3.5. So `Orbit.NextSpherical`'s `theta`, `OrbitProperties.IdleUpdateIsFixedPoint`, `OrbitProperties.UpdateAddsAzimuthDelta`, `OrbitProperties.IdleThetaIsDrifted`, `OrbitProperties.IdleThetaConverges` and `OrbitProperties.IdleThetaMonotone` describe the source only when both azimuth limits lie in (-Pi, Pi], or when they are absent, where `theta` agrees with the source's up to a multiple of 2 * Pi;
    - setting `phi` and `theta` to 0 when the radius is 0. With the default `minDistance` of 0, this happens once a pending radius delta of -10 or less makes the zoom factor at most 0, so the radius is clamped to 0. The model keeps the old angles there;
    - re-deriving a positive length with flipped angles when a negative `minDistance` clamps the radius below 0. The model keeps the negative radius.
  - Nor is a camera or target moved by other code between updates.
- three.js `Spherical` is library code that is not shown. `makeSafe` is taken to clamp `phi` into [Eps, Pi - Eps], and `new Spherical()` to have radius 1 and angles 0.
- IEEE floating point is not modelled: rounding, NaN and infinite intermediate values. Arithmetic is exact `real`. The `Infinity` and `-Infinity` defaults of `maxDistance`, `minAzimuthAngle` and `maxAzimuthAngle` are absent bounds.
- `minDistance`, `minPolarAngle` and `maxPolarAngle` are finite reals. Infinite values assigned to them by an application are not modelled.
- The element height is a positive parameter. A zero-height element, where the source divides by zero, is excluded. So is the `domElement === document` branch (orbitcontrols.js:106) that picks which element's height is read.
- `event.preventDefault()` and the `{ passive: false }` option (orbitcontrols.js:59-62) are not modelled. Nor is the DOM's event delivery beyond "a handler runs only while registered".
- `object` and `target` are abstracted into the spherical offset, as above: the offset is the camera position minus the target (orbitcontrols.js:66), and the new position is the target plus the offset (orbitcontrols.js:90). Neither field is modelled on its own.
- Fields that take no part in the behaviour are not modelled: `domElement` (beyond its height), `enablePan`, `panSpeed`, `panOffset`, and the unused local `EPS` (orbitcontrols.js:14, 27-28, 42, 45).
- `rotateEnd` and `rotateDelta` are locals of the rotate handler here, not persistent state. Their values between events are never read.
- The rest of script.js is not modelled: scene, renderer, textures, lights, sliders, the stop button, planet motion by `Math.cos`/`Math.sin`, and `requestAnimationFrame`. Only the controller set-up (script.js:27-34) and the per-frame `update` call (script.js:164) are modelled. The camera start (0, 200, 25) reaches the controller only as a spherical offset.
- Controls.OrbitControls.constructor: starts the pending deltas at zero, the corrected behaviour (see Findings). Orbit.ConstructAsWritten models the as-written radius of 1.
- Orbit.Construct: starts the pending deltas at zero in the same way, for the same reason. Orbit.ConstructAsWritten is its as-written counterpart.

## Findings

| source | as written | input that shows it | evidently intended | confidence | as-written member | corrected member |
|---|---|---|---|---|---|---|
| orbitcontrols.js:36 | `sphericalDelta` starts as a fresh three.js `Spherical()`, whose radius is 1, so a radius delta of 1 is pending before any input. Damping only decays it, and the first wheel event's zoom flag applies it. | The page's settings (script.js:29-33) with the camera at any radius `r` in [70, 500 / 1.095], the page's start (0, 200, 25) at radius about 201.56 included (script.js:18). After the set-up `update` the pending delta is 0.95. A frame with a wheel event of `deltaY` 0 then moves the camera to radius `r * 1.095`: about 220.71 on the page, 109.5 from radius 100. On the page, the first `animate()` (script.js:168) does not reach its `update` (script.js:164) while the textures are still loading: the planet loop reads `child.material.map.image.src` (script.js:148), and the texture's `image` is filled in only once `textureLoader.load` (script.js:54) has finished, so that line throws first. A wheel event that arrives before the textures have loaded therefore meets the 0.95 pending delta. | The pending deltas start at zero, and a wheel event that asks for no zoom leaves the radius where it is. | not executed | SolarSystem.ZeroWheelZoomsAsWritten | SolarSystem.ZeroWheelKeepsRadiusAfterSetUp |
