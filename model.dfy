/**
 * The controller as a value: everything a PeasyCam instance holds, and every operation on it as a
 * function from the old value to the new one. The class in the Controller module is proved to
 * follow these functions; the Properties module proves what they promise.
 */
module Model {
  import opened Utils
  import opened Geometry
  import opened Damped
  import opened Timed
  import opened Input

  /** The six damped channels, in the order `update` runs them. */
  datatype Axis = RotX | RotY | RotZ | Zoom | PanX | PanY

  datatype Channel = Channel(value: real, damping: real)

  datatype Momentum = Momentum(
    rotX: Channel, rotY: Channel, rotZ: Channel, zoom: Channel, panX: Channel, panY: Channel)

  function Get(m: Momentum, a: Axis): Channel {
    match a
    case RotX => m.rotX
    case RotY => m.rotY
    case RotZ => m.rotZ
    case Zoom => m.zoom
    case PanX => m.panX
    case PanY => m.panY
  }

  /** Replaces one channel and keeps the other five. */
  function Put(m: Momentum, a: Axis, c: Channel): (r: Momentum)
    ensures Get(r, a) == c
    ensures forall b :: b != a ==> Get(r, b) == Get(m, b)
  {
    match a
    case RotX => m.(rotX := c)
    case RotY => m.(rotY := c)
    case RotZ => m.(rotZ := c)
    case Zoom => m.(zoom := c)
    case PanX => m.(panX := c)
    case PanY => m.(panY := c)
  }

  /** `addForce` on one channel. */
  function Pushed(m: Momentum, a: Axis, force: real): (r: Momentum)
    ensures Get(r, a).value == Get(m, a).value + force
    ensures Get(r, a).damping == Get(m, a).damping
    ensures forall b :: b != a ==> Get(r, b) == Get(m, b)
  {
    Put(m, a, Get(m, a).(value := Get(m, a).value + force))
  }

  /** `stop` on one channel. */
  function Stopped(m: Momentum, a: Axis): (r: Momentum)
    ensures Get(r, a) == Get(m, a).(value := 0.0)
    ensures forall b :: b != a ==> Get(r, b) == Get(m, b)
  {
    Put(m, a, Get(m, a).(value := 0.0))
  }

  /** Mouse sensitivities: rotation, pan, drag zoom and wheel zoom. */
  datatype Scales = Scales(rotation: real, pan: real, zoom: real, wheel: real)

  const DefaultScales := Scales(0.001, 0.0005, 0.001, 20.0)
  const DistanceMinLimit: real := 0.001
  /** Double.MAX_VALUE, the initial maximum distance. */
  const DoubleMax: real := 1.7976931348623157e308
  const DefaultInterpolationTime: int := 300

  /** The pointer fields: the drag flag, the current and previous position, the inverted deltas and the wheel count. */
  datatype Pointer = Pointer(
    dragActive: bool, mx: real, my: real, pmx: real, pmy: real, dmx: real, dmy: real, wheel: real)

  datatype Constraints = Constraints(shift: Mask, fixed: Mask, drag: Mask)

  datatype Timers = Timers(rot: Timer<Rotation>, pan: Timer<Vec3>, zoom: Timer<real>)

  datatype Cam = Cam(
    geo: Geometry,
    state: State, stateReset: State, statePushed: State,
    scales: Scales, distanceMin: real, distanceMax: real, defaultTime: int,
    momentum: Momentum, timers: Timers,
    viewport: Viewport, pointer: Pointer, constraints: Constraints)

  /** The one invariant: an active timer has a positive duration. */
  predicate Wf(cam: Cam) {
    WellFormed(cam.timers.rot) && WellFormed(cam.timers.pan) && WellFormed(cam.timers.zoom)
  }

  /** A freshly constructed controller for a canvas of the given size. */
  function Initial(geo: Geometry, s: State, width: real, height: real): (r: Cam)
    ensures Wf(r)
    ensures r.state == s && r.stateReset == s && r.statePushed == s
    ensures forall a :: Get(r.momentum, a) == Channel(0.0, DefaultDamping)
  {
    var idle := Channel(0.0, DefaultDamping);
    Cam(geo, s, s, s, DefaultScales, DistanceMinLimit, DoubleMax, DefaultInterpolationTime,
        Momentum(idle, idle, idle, idle, idle, idle),
        Timers(Timer(s.rotation, s.rotation, 0, 0, false), Timer(s.center, s.center, 0, 0, false),
               Timer(s.distance, s.distance, 0, 0, false)),
        Viewport(0.0, 0.0, width, height),
        Pointer(false, 0.0, 0.0, 0.0, 0.0, 0.0, 0.0, 0.0),
        Constraints(0, 0, 0))
  }

  // ----- pose mutators -----

  /**
   * The clamp of `zoom`: the new distance and whether a clamp fired (each clamp stops the
   * zoom channel). Below the minimum it is raised to the minimum, then above the maximum it is
   * lowered to the maximum.
   */
  function ZoomClamp(distance: real, dz: real, lo: real, hi: real): (r: (real, bool))
    ensures lo <= hi ==> lo <= r.0 <= hi
    ensures !r.1 <==> lo <= distance + dz <= hi
    ensures !r.1 ==> r.0 == distance + dz
    ensures r.1 ==> r.0 == lo || r.0 == hi
    ensures lo > hi ==> r == (hi, true)
    ensures lo <= hi && distance + dz < lo ==> r == (lo, true)
    ensures distance + dz > hi ==> r == (hi, true)
  {
    var d0 := distance + dz;
    var (d1, s1) := if d0 < lo then (lo, true) else (d0, false);
    if d1 > hi then (hi, true) else (d1, s1)
  }

  function Zoomed(cam: Cam, dz: real): (r: Cam)
    ensures r == cam.(state := r.state, momentum := r.momentum)
    ensures r.state == cam.state.(distance := r.state.distance)
  {
    var (d, stopped) := ZoomClamp(cam.state.distance, dz, cam.distanceMin, cam.distanceMax);
    cam.(state := cam.state.(distance := d),
         momentum := if stopped then Stopped(cam.momentum, Zoom) else cam.momentum)
  }

  /** Moves the center by a camera-relative offset; a zero offset is skipped. */
  function Shifted(cam: Cam, offset: Vec3, skip: bool): (r: Cam)
    ensures r == cam.(state := cam.state.(center := r.state.center))
  {
    if skip then cam
    else cam.(state := cam.state.(center := Add(cam.state.center, cam.geo.rotate(cam.state.rotation, offset))))
  }

  function PannedX(cam: Cam, dx: real): (r: Cam)
    ensures r == cam.(state := cam.state.(center := r.state.center))
    ensures dx == 0.0 ==> r == cam
  {
    Shifted(cam, Vec3(dx, 0.0, 0.0), dx == 0.0)
  }

  function PannedY(cam: Cam, dy: real): (r: Cam)
    ensures r == cam.(state := cam.state.(center := r.state.center))
    ensures dy == 0.0 ==> r == cam
  {
    Shifted(cam, Vec3(0.0, dy, 0.0), dy == 0.0)
  }

  /** `pan(dx, dy)` as PeasyCam writes it: the second call receives dx. */
  function PannedAsWritten(cam: Cam, dx: real, dy: real): (r: Cam)
    ensures r == cam.(state := cam.state.(center := r.state.center))
  {
    PannedY(PannedX(cam, dx), dx)
  }

  /** `pan(dx, dy)` as intended: pan along x by dx, then along y by dy. */
  function Panned(cam: Cam, dx: real, dy: real): (r: Cam)
    ensures r == cam.(state := cam.state.(center := r.state.center))
    ensures dx == 0.0 && dy == 0.0 ==> r == cam
  {
    PannedY(PannedX(cam, dx), dy)
  }

  /** `rotate(axis, angle)`: the camera rotation followed by the given one; a zero angle is skipped. */
  function Rotated(cam: Cam, axis: Vec3, angle: real): (r: Cam)
    ensures r == cam.(state := cam.state.(rotation := r.state.rotation))
    ensures angle == 0.0 ==> r == cam
  {
    if angle == 0.0 then cam
    else cam.(state := cam.state.(rotation := cam.geo.compose(cam.state.rotation, cam.geo.axisAngle(axis, angle))))
  }

  // ----- damped channels and the frame -----

  /**
   * `getRotationMult`: the distance gain times the rotation scale; a non-negative gain and scale
   * never reverse a rotate gesture.
   */
  function RotationMult(cam: Cam): (r: real)
    ensures cam.geo.rotationGain(cam.state.distance) >= 0.0 && cam.scales.rotation >= 0.0 ==> r >= 0.0
  {
    var g := cam.geo.rotationGain(cam.state.distance);
    assert g >= 0.0 && cam.scales.rotation >= 0.0 ==> g * cam.scales.rotation >= 0.0 by {
      if g >= 0.0 && cam.scales.rotation >= 0.0 {
        MulNonNeg(g, cam.scales.rotation);
      }
    }
    g * cam.scales.rotation
  }

  /**
   * `getZoomMult`: zoom speed proportional to the distance, so a camera at its look-at point
   * does not zoom, and a non-negative distance and scale never reverse a zoom gesture.
   */
  function ZoomMult(cam: Cam): (r: real)
    ensures cam.state.distance == 0.0 ==> r == 0.0
    ensures cam.state.distance >= 0.0 && cam.scales.zoom >= 0.0 ==> r >= 0.0
  {
    assert cam.state.distance >= 0.0 && cam.scales.zoom >= 0.0 ==> cam.state.distance * cam.scales.zoom >= 0.0 by {
      if cam.state.distance >= 0.0 && cam.scales.zoom >= 0.0 {
        MulNonNeg(cam.state.distance, cam.scales.zoom);
      }
    }
    cam.state.distance * cam.scales.zoom
  }

  /** `getPanMult`: pan speed proportional to the distance, in the same way. */
  function PanMult(cam: Cam): (r: real)
    ensures cam.state.distance == 0.0 ==> r == 0.0
    ensures cam.state.distance >= 0.0 && cam.scales.pan >= 0.0 ==> r >= 0.0
  {
    assert cam.state.distance >= 0.0 && cam.scales.pan >= 0.0 ==> cam.state.distance * cam.scales.pan >= 0.0 by {
      if cam.state.distance >= 0.0 && cam.scales.pan >= 0.0 {
        MulNonNeg(cam.state.distance, cam.scales.pan);
      }
    }
    cam.state.distance * cam.scales.pan
  }

  /** A channel value times its multiplier: the argument a damped action passes on. */
  function Scaled(value: real, mult: real): real {
    value * mult
  }

  /** The action of one damped channel, applied with the channel's current value. */
  function DampedEffect(cam: Cam, a: Axis, v: real): (r: Cam)
    ensures a != Zoom ==> r.momentum == cam.momentum
    ensures forall b :: b != Zoom ==> Get(r.momentum, b) == Get(cam.momentum, b)
    ensures Get(r.momentum, Zoom) == Get(cam.momentum, Zoom) || Get(r.momentum, Zoom).value == 0.0
    ensures Get(r.momentum, Zoom).damping == Get(cam.momentum, Zoom).damping
    ensures r == cam.(state := r.state, momentum := r.momentum)
  {
    match a
    case RotX => Rotated(cam, PlusI, Scaled(v, RotationMult(cam)))
    case RotY => Rotated(cam, PlusJ, Scaled(v, RotationMult(cam)))
    case RotZ => Rotated(cam, PlusK, Scaled(v, RotationMult(cam)))
    case Zoom => Zoomed(cam, Scaled(v, ZoomMult(cam)))
    case PanX => PannedX(cam, Scaled(v, PanMult(cam)))
    case PanY => PannedY(cam, Scaled(v, PanMult(cam)))
  }

  /**
   * `DampedAction.update()` on one channel in PeasyCam's order: when active, the action runs with
   * the value and the (possibly stopped) value then decays; otherwise the value is zeroed.
   * Also returns whether the channel was active.
   */
  function RunChannel(cam: Cam, a: Axis): (r: (Cam, bool))
    ensures r.1 <==> IsActive(Get(cam.momentum, a).value)
  {
    var c := Get(cam.momentum, a);
    if IsActive(c.value) then
      var cam1 := DampedEffect(cam, a, c.value);
      var c1 := Get(cam1.momentum, a);
      (cam1.(momentum := Put(cam1.momentum, a, c1.(value := c1.value * c1.damping))), true)
    else
      (cam.(momentum := Stopped(cam.momentum, a)), false)
  }

  /** One channel's update changes only the pose and the channels, and an idle one not the pose. */
  lemma RunChannelFrame(cam: Cam, a: Axis)
    ensures RunChannel(cam, a).0 == cam.(state := RunChannel(cam, a).0.state, momentum := RunChannel(cam, a).0.momentum)
    ensures !RunChannel(cam, a).1 ==> RunChannel(cam, a).0.state == cam.state
  {
  }

  /**
   * The six damped channels, in order; reports whether any was active. Only the pose and the
   * channels change, and when no channel was active no action ran, so the pose is untouched.
   */
  function Damp(cam: Cam): (r: (Cam, bool))
    ensures r.0 == cam.(state := r.0.state, momentum := r.0.momentum)
    ensures !r.1 ==> r.0.state == cam.state
  {
    var (c1, a1) := RunChannel(cam, RotX);
    RunChannelFrame(cam, RotX);
    var (c2, a2) := RunChannel(c1, RotY);
    RunChannelFrame(c1, RotY);
    var (c3, a3) := RunChannel(c2, RotZ);
    RunChannelFrame(c2, RotZ);
    var (c4, a4) := RunChannel(c3, Zoom);
    RunChannelFrame(c3, Zoom);
    var (c5, a5) := RunChannel(c4, PanX);
    RunChannelFrame(c4, PanX);
    var (c6, a6) := RunChannel(c5, PanY);
    RunChannelFrame(c5, PanY);
    (c6, a1 || a2 || a3 || a4 || a5 || a6)
  }

  /** The timed actions: `setRotation`, `setCenter` and `setDistance` with (a, b, t). */
  function RotationAt(cam: Cam, a: Rotation, b: Rotation, t: real): (r: Cam)
    ensures r == cam.(state := cam.state.(rotation := r.state.rotation))
  {
    cam.(state := cam.state.(rotation := cam.geo.slerp(a, b, t)))
  }

  function CenterAt(cam: Cam, a: Vec3, b: Vec3, t: real): (r: Cam)
    ensures r == cam.(state := cam.state.(center := r.state.center))
    ensures t == 1.0 ==> r.state.center == b
  {
    cam.(state := cam.state.(center := Mix3(a, b, Smootherstep(t))))
  }

  function DistanceAt(cam: Cam, a: real, b: real, t: real): (r: Cam)
    ensures r == cam.(state := cam.state.(distance := r.state.distance))
    ensures t == 1.0 ==> r.state.distance == b
    ensures 0.0 <= t <= 1.0 ==> Min(a, b) <= r.state.distance <= Max(a, b)
  {
    cam.(state := cam.state.(distance := Mix(a, b, Smootherstep(t))))
  }

  /** `update()` of the three interpolations: rotation, center, distance. */
  function RunTimers(cam: Cam, now: int): (r: Cam)
    requires Wf(cam)
    ensures Wf(r)
    ensures r.momentum == cam.momentum
  {
    var (rt, rk) := Advance(cam.timers.rot, now);
    var c1 := cam.(timers := cam.timers.(rot := rt));
    var c2 := if rk.Fire? then RotationAt(c1, rt.valA, rt.valB, rk.t) else c1;
    var (pt, pk) := Advance(c2.timers.pan, now);
    var c3 := c2.(timers := c2.timers.(pan := pt));
    var c4 := if pk.Fire? then CenterAt(c3, pt.valA, pt.valB, pk.t) else c3;
    var (zt, zk) := Advance(c4.timers.zoom, now);
    var c5 := c4.(timers := c4.timers.(zoom := zt));
    if zk.Fire? then DistanceAt(c5, zt.valA, zt.valB, zk.t) else c5
  }

  /** `stop()` of the three interpolations. */
  function StopTimers(cam: Cam): (r: Cam)
    ensures Wf(r)
    ensures !r.timers.rot.active && !r.timers.pan.active && !r.timers.zoom.active
  {
    cam.(timers := Timers(Halted(cam.timers.rot), Halted(cam.timers.pan), Halted(cam.timers.zoom)))
  }

  /** The per-frame `update()`: damped channels first; any activity pre-empts the interpolations. */
  function Frame(cam: Cam, now: int): (r: Cam)
    requires Wf(cam)
    ensures Wf(r)
  {
    var (c, moved) := Damp(cam);
    if moved then StopTimers(c) else RunTimers(c, now)
  }

  // ----- timed setters and saved states -----

  /** Timed `setDistance(distance, duration)`: stops the zoom channel and starts the distance transition. */
  function DistanceTo(cam: Cam, distance: real, duration: int, now: int): (r: Cam)
    requires Wf(cam)
    ensures Wf(r)
  {
    var (tm, tk) := Begin(cam.state.distance, distance, duration, now);
    var c := cam.(momentum := Stopped(cam.momentum, Zoom), timers := cam.timers.(zoom := tm));
    if tk.Fire? then DistanceAt(c, tm.valA, tm.valB, tk.t) else c
  }

  /** Timed `setCenter(center, duration)`: stops both pan channels. */
  function CenterTo(cam: Cam, center: Vec3, duration: int, now: int): (r: Cam)
    requires Wf(cam)
    ensures Wf(r)
  {
    var (tm, tk) := Begin(cam.state.center, center, duration, now);
    var c := cam.(momentum := Stopped(Stopped(cam.momentum, PanX), PanY), timers := cam.timers.(pan := tm));
    if tk.Fire? then CenterAt(c, tm.valA, tm.valB, tk.t) else c
  }

  /** Timed `setRotation(rotation, duration)`: stops the three rotation channels. */
  function RotationTo(cam: Cam, rotation: Rotation, duration: int, now: int): (r: Cam)
    requires Wf(cam)
    ensures Wf(r)
  {
    var (tm, tk) := Begin(cam.state.rotation, rotation, duration, now);
    var m := Stopped(Stopped(Stopped(cam.momentum, RotX), RotY), RotZ);
    var c := cam.(momentum := m, timers := cam.timers.(rot := tm));
    if tk.Fire? then RotationAt(c, tm.valA, tm.valB, tk.t) else c
  }

  /** `setState(other, duration)`: a null state changes nothing. */
  function StateTo(cam: Cam, other: Option<State>, duration: int, now: int): (r: Cam)
    requires Wf(cam)
    ensures Wf(r)
    ensures other.None? ==> r == cam
  {
    match other
    case None => cam
    case Some(s) =>
      RotationTo(CenterTo(DistanceTo(cam, s.distance, duration, now), s.center, duration, now), s.rotation, duration, now)
  }

  function PushState(cam: Cam): (r: (Cam, State))
    ensures r.0 == cam.(statePushed := cam.state) && r.1 == cam.state
  {
    (cam.(statePushed := cam.state), cam.state)
  }

  function PopState(cam: Cam, duration: int, now: int): (r: Cam)
    requires Wf(cam)
    ensures Wf(r)
  {
    StateTo(cam, Some(cam.statePushed), duration, now)
  }

  function PushResetState(cam: Cam): (r: (Cam, State))
    ensures r.0 == cam.(stateReset := cam.state) && r.1 == cam.state
  {
    (cam.(stateReset := cam.state), cam.state)
  }

  function Reset(cam: Cam, duration: int, now: int): (r: Cam)
    requires Wf(cam)
    ensures Wf(r)
  {
    StateTo(cam, Some(cam.stateReset), duration, now)
  }

  // ----- limits and settings -----

  function DistanceMinSet(cam: Cam, distanceMin: real): (r: Cam)
    ensures r.distanceMin >= DistanceMinLimit
    ensures r.distanceMin == Max(distanceMin, DistanceMinLimit)
  {
    Zoomed(cam.(distanceMin := Max(distanceMin, DistanceMinLimit)), 0.0)
  }

  function DistanceMaxSet(cam: Cam, distanceMax: real): (r: Cam)
    ensures r.distanceMax == distanceMax
  {
    Zoomed(cam.(distanceMax := distanceMax), 0.0)
  }

  /** `setRotationConstraint`: the fixed mask holds exactly the chosen axes; nothing else changes. */
  function ConstraintSet(cam: Cam, yaw: bool, pitch: bool, roll: bool): (r: Cam)
    ensures r == cam.(constraints := cam.constraints.(fixed := r.constraints.fixed))
    ensures Has(r.constraints.fixed, YAW) <==> yaw
    ensures Has(r.constraints.fixed, PITCH) <==> pitch
    ensures Has(r.constraints.fixed, ROLL) <==> roll
  {
    cam.(constraints := cam.constraints.(fixed := FixedConstraint(yaw, pitch, roll)))
  }

  function DampingSet(cam: Cam, damping: real): (r: Cam)
    ensures forall a :: Get(r.momentum, a) == Get(cam.momentum, a).(damping := damping)
    ensures r == cam.(momentum := r.momentum)
  {
    var m := cam.momentum;
    cam.(momentum := Momentum(
      m.rotX.(damping := damping), m.rotY.(damping := damping), m.rotZ.(damping := damping),
      m.zoom.(damping := damping), m.panX.(damping := damping), m.panY.(damping := damping)))
  }

  /** `setViewport`: the viewport becomes [x, y, w, h]; nothing else changes. */
  function ViewportSet(cam: Cam, x: real, y: real, w: real, h: real): (r: Cam)
    ensures r == cam.(viewport := r.viewport)
    ensures r.viewport == Viewport(x, y, w, h)
  {
    cam.(viewport := Viewport(x, y, w, h))
  }

  // ----- mouse and keys -----

  datatype MouseAction = Press | Release | Click | Drag | Move | Enter | Exit | Wheel

  datatype Button = Left | Center | Right | NoButton

  datatype MouseEvent = MouseEvent(
    action: MouseAction, button: Button, x: real, y: real, count: int, shiftDown: bool, metaDown: bool)

  datatype KeyAction = KeyPress | KeyRelease | KeyTyped

  datatype KeyEvent = KeyEvent(action: KeyAction, shiftKey: bool)

  /** `mouseWheelZoom`: the scaled wheel count goes to the zoom channel and nowhere else. */
  function WheelZoomed(cam: Cam): (r: Cam)
    ensures r == cam.(momentum := r.momentum)
    ensures Get(r.momentum, Zoom).value == Get(cam.momentum, Zoom).value + cam.pointer.wheel * cam.scales.wheel
    ensures forall b :: b != Zoom ==> Get(r.momentum, b) == Get(cam.momentum, b)
  {
    cam.(momentum := Pushed(cam.momentum, Zoom, cam.pointer.wheel * cam.scales.wheel))
  }

  /** `mouseDragZoom`: the inverted vertical delta goes to the zoom channel and nowhere else. */
  function DragZoomed(cam: Cam): (r: Cam)
    ensures r == cam.(momentum := r.momentum)
    ensures Get(r.momentum, Zoom).value == Get(cam.momentum, Zoom).value - cam.pointer.dmy
    ensures forall b :: b != Zoom ==> Get(r.momentum, b) == Get(cam.momentum, b)
  {
    cam.(momentum := Pushed(cam.momentum, Zoom, -cam.pointer.dmy))
  }

  /** `mouseDragPan`: each pan channel receives its delta only when its axis is allowed. */
  function DragPanned(cam: Cam): (r: Cam)
    ensures r == cam.(momentum := r.momentum)
    ensures forall b :: b != PanX && b != PanY ==> Get(r.momentum, b) == Get(cam.momentum, b)
    ensures Has(cam.constraints.drag, YAW) ==> Get(r.momentum, PanX).value == Get(cam.momentum, PanX).value + cam.pointer.dmx
    ensures !Has(cam.constraints.drag, YAW) ==> Get(r.momentum, PanX) == Get(cam.momentum, PanX)
    ensures Has(cam.constraints.drag, PITCH) ==> Get(r.momentum, PanY).value == Get(cam.momentum, PanY).value + cam.pointer.dmy
    ensures !Has(cam.constraints.drag, PITCH) ==> Get(r.momentum, PanY) == Get(cam.momentum, PanY)
  {
    var d := cam.constraints.drag;
    var m1 := Pushed(cam.momentum, PanX, if Has(d, YAW) then cam.pointer.dmx else 0.0);
    cam.(momentum := Pushed(m1, PanY, if Has(d, PITCH) then cam.pointer.dmy else 0.0))
  }

  /**
   * `mouseDragRotate`: forces shaped by the pointer's normalised position, per allowed axis;
   * only the three rotation channels change, and a disallowed axis keeps its channel.
   */
  function DragRotated(cam: Cam): (r: Cam)
    ensures r == cam.(momentum := r.momentum)
    ensures forall b :: b != RotX && b != RotY && b != RotZ ==> Get(r.momentum, b) == Get(cam.momentum, b)
    ensures !Has(cam.constraints.drag, YAW) ==> Get(r.momentum, RotY) == Get(cam.momentum, RotY)
    ensures !Has(cam.constraints.drag, PITCH) ==> Get(r.momentum, RotX) == Get(cam.momentum, RotX)
    ensures !Has(cam.constraints.drag, ROLL) ==> Get(r.momentum, RotZ) == Get(cam.momentum, RotZ)
  {
    var p := cam.pointer;
    var vp := cam.viewport;
    var d := cam.constraints.drag;
    var mxNdc := Ndc(p.mx, vp.x, vp.w);
    var myNdc := Ndc(p.my, vp.y, vp.h);
    var m0 := cam.momentum;
    var m1 := if Has(d, YAW) then Pushed(m0, RotY, YawForce(p.dmx, myNdc)) else m0;
    var m2 := if Has(d, PITCH) then Pushed(m1, RotX, PitchForce(p.dmy, mxNdc)) else m1;
    var m3 := if Has(d, ROLL) then Pushed(Pushed(m2, RotZ, RollForceX(p.dmx, myNdc)), RotZ, RollForceY(p.dmy, mxNdc)) else m2;
    cam.(momentum := m3)
  }

  /** The constraints of a drag: the Shift latch, then the effective mask for this drag. */
  function Constrained(cam: Cam, e: MouseEvent): (r: Cam)
    ensures r == cam.(constraints := r.constraints) && r.constraints.fixed == cam.constraints.fixed
  {
    var k := cam.constraints;
    var shift := LatchShift(k.shift, e.shiftDown, cam.pointer.dmx, cam.pointer.dmy);
    cam.(constraints := k.(shift := shift, drag := EffectiveConstraint(shift, k.fixed)))
  }

  /**
   * The drag branch of `mouseEvent`, once dragging is active: only the constraints and the
   * channels change, and without a button only the constraints do.
   */
  function Dragged(cam: Cam, e: MouseEvent): (r: Cam)
    ensures r == cam.(momentum := r.momentum, constraints := r.constraints)
    ensures r.constraints == Constrained(cam, e).constraints
    ensures e.button == NoButton ==> r.momentum == cam.momentum
  {
    var c := Constrained(cam, e);
    if e.button == Center || (e.button == Left && e.metaDown) then DragPanned(c)
    else if e.button == Left then DragRotated(c)
    else if e.button == Right then DragZoomed(c)
    else c
  }

  /**
   * The pointer bookkeeping every mouse event does first: the old position becomes the previous
   * one, the event's position the current one, the deltas are previous minus current (inverted
   * motion) and the wheel count is recorded; the drag flag is left alone.
   */
  function Tracked(p: Pointer, e: MouseEvent): (r: Pointer)
    ensures r.dragActive == p.dragActive && r.wheel == e.count as real
    ensures r.pmx == p.mx && r.pmy == p.my && r.mx == e.x && r.my == e.y
    ensures r.dmx == r.pmx - r.mx && r.dmy == r.pmy - r.my
  {
    Pointer(p.dragActive, e.x, e.y, p.mx, p.my, -(e.x - p.mx), -(e.y - p.my), e.count as real)
  }

  /** `mouseEvent(e)` at time `now` (a double click starts the timed reset). */
  function Mouse(cam: Cam, e: MouseEvent, now: int): (r: Cam)
    requires Wf(cam)
    ensures Wf(r)
  {
    var q := Tracked(cam.pointer, e);
    var c := cam.(pointer := q);
    var inside := Inside(c.viewport, q.mx, q.my);
    match e.action
    case Press =>
      if inside then
        c.(pointer := q.(dragActive := true, dmx := 0.0, dmy := 0.0, pmx := q.mx, pmy := q.my),
           constraints := c.constraints.(shift := 0))
      else c
    case Wheel => if inside then WheelZoomed(c) else c
    case Click => if inside && e.count == 2 then Reset(c, c.defaultTime, now) else c
    case Drag => if !q.dragActive then c else Dragged(c, e)
    case Release =>
      c.(pointer := q.(dragActive := false, pmx := q.mx, pmy := q.my), constraints := c.constraints.(shift := 0))
    case Move => c
    case Enter => c
    case Exit => c
  }

  /** `keyEvent(e)`: releasing Shift clears the latched constraint. */
  function Key(cam: Cam, e: KeyEvent): (r: Cam)
    ensures r == cam.(constraints := r.constraints)
    ensures r.constraints == cam.constraints.(shift := r.constraints.shift)
  {
    if e.action == KeyRelease && e.shiftKey then cam.(constraints := cam.constraints.(shift := 0)) else cam
  }
}
