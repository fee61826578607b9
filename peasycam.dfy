/**
 * PeasyCam itself: the controller object whose fields the Java class updates in place. Every method
 * is proved to move the object's abstract value `View()` exactly as the function of the same
 * name in the Model module describes.
 */
module Controller {
  import opened Utils
  import opened Geometry
  import opened Damped
  import opened Timed
  import opened Input
  import opened Model

  class PeasyCam {
    const geo: Geometry

    var state: State
    var stateReset: State
    var statePushed: State

    var scaleRotation: real
    var scalePan: real
    var scaleZoom: real
    var scaleZoomWheel: real

    var distanceMin: real
    var distanceMax: real
    var defaultInterpolationTime: int

    const dampedZoom: DampedAction
    const dampedPanX: DampedAction
    const dampedPanY: DampedAction
    const dampedRotX: DampedAction
    const dampedRotY: DampedAction
    const dampedRotZ: DampedAction

    const timedRot: Interpolation<Rotation>
    const timedPan: Interpolation<Vec3>
    const timedZoom: Interpolation<real>

    var shiftConstraint: Mask
    var fixedConstraint: Mask
    var dragConstraint: Mask

    /** [x, y, w, h] */
    const viewport: array<real>

    var dragActive: bool
    var mx: real
    var my: real
    var pmx: real
    var pmy: real
    var dmx: real
    var dmy: real
    var mwheel: real

    /** The six channels are six distinct objects. */
    ghost predicate Distinct() {
      dampedRotX != dampedRotY && dampedRotX != dampedRotZ && dampedRotX != dampedZoom &&
      dampedRotX != dampedPanX && dampedRotX != dampedPanY &&
      dampedRotY != dampedRotZ && dampedRotY != dampedZoom && dampedRotY != dampedPanX &&
      dampedRotY != dampedPanY &&
      dampedRotZ != dampedZoom && dampedRotZ != dampedPanX && dampedRotZ != dampedPanY &&
      dampedZoom != dampedPanX && dampedZoom != dampedPanY &&
      dampedPanX != dampedPanY
    }

    ghost predicate Valid()
      reads timedRot, timedPan, timedZoom
    {
      viewport.Length == 4 && Distinct() &&
      timedRot.Valid() && timedPan.Valid() && timedZoom.Valid()
    }

    function ChannelOf(a: Axis): DampedAction {
      match a
      case RotX => dampedRotX
      case RotY => dampedRotY
      case RotZ => dampedRotZ
      case Zoom => dampedZoom
      case PanX => dampedPanX
      case PanY => dampedPanY
    }

    ghost function View(): Cam
      reads this, dampedZoom, dampedPanX, dampedPanY, dampedRotX, dampedRotY, dampedRotZ
      reads timedRot, timedPan, timedZoom, viewport
      requires viewport.Length == 4
    {
      Cam(geo, state, stateReset, statePushed,
          Scales(scaleRotation, scalePan, scaleZoom, scaleZoomWheel),
          distanceMin, distanceMax, defaultInterpolationTime,
          Momentum(Channel(dampedRotX.value, dampedRotX.damping), Channel(dampedRotY.value, dampedRotY.damping),
                   Channel(dampedRotZ.value, dampedRotZ.damping), Channel(dampedZoom.value, dampedZoom.damping),
                   Channel(dampedPanX.value, dampedPanX.damping), Channel(dampedPanY.value, dampedPanY.damping)),
          Timers(timedRot.View(), timedPan.View(), timedZoom.View()),
          Viewport(viewport[0], viewport[1], viewport[2], viewport[3]),
          Pointer(dragActive, mx, my, pmx, pmy, dmx, dmy, mwheel),
          Constraints(shiftConstraint, fixedConstraint, dragConstraint))
    }

    /** A controller for a canvas of the given size, starting (and resetting) at `initial`. */
    constructor (geo: Geometry, initial: State, width: real, height: real)
      ensures Valid() && View() == Initial(geo, initial, width, height)
    {
      this.geo := geo;
      state, stateReset, statePushed := initial, initial, initial;
      scaleRotation, scalePan, scaleZoom, scaleZoomWheel := 0.001, 0.0005, 0.001, 20.0;
      distanceMin, distanceMax := DistanceMinLimit, DoubleMax;
      defaultInterpolationTime := DefaultInterpolationTime;
      dampedZoom := new DampedAction();
      dampedPanX := new DampedAction();
      dampedPanY := new DampedAction();
      dampedRotX := new DampedAction();
      dampedRotY := new DampedAction();
      dampedRotZ := new DampedAction();
      timedRot := new Interpolation(initial.rotation);
      timedPan := new Interpolation(initial.center);
      timedZoom := new Interpolation(initial.distance);
      shiftConstraint, fixedConstraint, dragConstraint := 0, 0, 0;
      viewport := new real[] [0.0, 0.0, width, height];
      dragActive := false;
      mx, my, pmx, pmy, dmx, dmy, mwheel := 0.0, 0.0, 0.0, 0.0, 0.0, 0.0, 0.0;
      new;
      assert viewport[..] == [0.0, 0.0, width, height];
      assert Distinct();
    }

    // ----- pose mutators -----

    method Zoom(dz: real)
      requires Valid()
      modifies this`state, dampedZoom`value
      ensures Valid() && View() == Zoomed(old(View()), dz)
    {
      var d := state.distance + dz;
      if d < distanceMin {
        d := distanceMin;
        dampedZoom.Stop();
      }
      if d > distanceMax {
        d := distanceMax;
        dampedZoom.Stop();
      }
      state := state.(distance := d);
    }

    method PanX(dx: real)
      requires Valid()
      modifies this`state
      ensures Valid() && View() == PannedX(old(View()), dx)
    {
      if dx != 0.0 {
        state := state.(center := Add(state.center, geo.rotate(state.rotation, Vec3(dx, 0.0, 0.0))));
      }
    }

    method PanY(dy: real)
      requires Valid()
      modifies this`state
      ensures Valid() && View() == PannedY(old(View()), dy)
    {
      if dy != 0.0 {
        state := state.(center := Add(state.center, geo.rotate(state.rotation, Vec3(0.0, dy, 0.0))));
      }
    }

    /** `pan(dx, dy)`, with the vertical call given dy (see PannedAsWritten for the Java version). */
    method Pan(dx: real, dy: real)
      requires Valid()
      modifies this`state
      ensures Valid() && View() == Panned(old(View()), dx, dy)
    {
      PanX(dx);
      PanY(dy);
    }

    method Rotate(axis: Vec3, angle: real)
      requires Valid()
      modifies this`state
      ensures Valid() && View() == Rotated(old(View()), axis, angle)
    {
      if angle != 0.0 {
        state := state.(rotation := geo.compose(state.rotation, geo.axisAngle(axis, angle)));
      }
    }

    method RotateX(rx: real)
      requires Valid()
      modifies this`state
      ensures Valid() && View() == Rotated(old(View()), PlusI, rx)
    {
      Rotate(PlusI, rx);
    }

    method RotateY(ry: real)
      requires Valid()
      modifies this`state
      ensures Valid() && View() == Rotated(old(View()), PlusJ, ry)
    {
      Rotate(PlusJ, ry);
    }

    method RotateZ(rz: real)
      requires Valid()
      modifies this`state
      ensures Valid() && View() == Rotated(old(View()), PlusK, rz)
    {
      Rotate(PlusK, rz);
    }

    // ----- damped channels and the frame -----

    function GetZoomMult(): (r: real)
      reads this, dampedZoom, dampedPanX, dampedPanY, dampedRotX, dampedRotY, dampedRotZ
      reads timedRot, timedPan, timedZoom, viewport
      requires viewport.Length == 4
      ensures r == ZoomMult(View())
    {
      state.distance * scaleZoom
    }

    function GetPanMult(): (r: real)
      reads this, dampedZoom, dampedPanX, dampedPanY, dampedRotX, dampedRotY, dampedRotZ
      reads timedRot, timedPan, timedZoom, viewport
      requires viewport.Length == 4
      ensures r == PanMult(View())
    {
      state.distance * scalePan
    }

    function GetRotationMult(): (r: real)
      reads this, dampedZoom, dampedPanX, dampedPanY, dampedRotX, dampedRotY, dampedRotZ
      reads timedRot, timedPan, timedZoom, viewport
      requires viewport.Length == 4
      ensures r == RotationMult(View())
    {
      geo.rotationGain(state.distance) * scaleRotation
    }

    /** The action of the damped channel `a`, applied with `value`. */
    method ApplyDamped(a: Axis, value: real)
      requires Valid()
      modifies this`state, dampedZoom`value
      ensures Valid() && View() == DampedEffect(old(View()), a, value)
    {
      ghost var v0 := View();
      assert GetRotationMult() == RotationMult(v0);
      assert GetPanMult() == PanMult(v0);
      assert GetZoomMult() == ZoomMult(v0);
      match a
      case RotX => RotateX(Scaled(value, GetRotationMult()));
      case RotY => RotateY(Scaled(value, GetRotationMult()));
      case RotZ => RotateZ(Scaled(value, GetRotationMult()));
      case Zoom => Zoom(Scaled(value, GetZoomMult()));
      case PanX => PanX(Scaled(value, GetPanMult()));
      case PanY => PanY(Scaled(value, GetPanMult()));
    }

    /** `update()` of one damped channel: advance it, and apply its action when it was active. */
    method RunDamped(a: Axis) returns (active: bool)
      requires Valid()
      modifies this`state, dampedZoom`value, dampedPanX`value, dampedPanY`value
      modifies dampedRotX`value, dampedRotY`value, dampedRotZ`value
      ensures Valid() && (View(), active) == RunChannel(old(View()), a)
    {
      var ch := ChannelOf(a);
      var force;
      active, force := ch.Update();
      if active {
        ghost var mid := View();
        ApplyDamped(a, force);
        DecayFirst(old(View()), a, mid);
      }
    }

    method RunTimers(now: int)
      requires Valid()
      modifies this`state, timedRot`active, timedPan`active, timedZoom`active
      ensures Valid() && View() == Model.RunTimers(old(View()), now)
    {
      var tick := timedRot.Update(now);
      if tick.Fire? {
        SetRotationBetween(timedRot.valA, timedRot.valB, tick.t);
      }
      tick := timedPan.Update(now);
      if tick.Fire? {
        SetCenterBetween(timedPan.valA, timedPan.valB, tick.t);
      }
      tick := timedZoom.Update(now);
      if tick.Fire? {
        SetDistanceBetween(timedZoom.valA, timedZoom.valB, tick.t);
      }
    }

    /** The per-frame update at time `now`. */
    method Update(now: int)
      requires Valid()
      modifies this`state, dampedZoom`value, dampedPanX`value, dampedPanY`value
      modifies dampedRotX`value, dampedRotY`value, dampedRotZ`value
      modifies timedRot`active, timedPan`active, timedZoom`active
      ensures Valid() && View() == Frame(old(View()), now)
    {
      ghost var c0 := View();
      var moved := RunAllDamped();
      ghost var c1 := View();
      assert (c1, moved) == Damp(c0);
      if moved {
        StopTimers();
        assert View() == Model.StopTimers(c1);
      } else {
        RunTimers(now);
        assert View() == Model.RunTimers(c1, now);
      }
    }

    /** The six damped channels of `update()`, in PeasyCam's order; reports whether any moved. */
    method RunAllDamped() returns (moved: bool)
      requires Valid()
      modifies this`state, dampedZoom`value, dampedPanX`value, dampedPanY`value
      modifies dampedRotX`value, dampedRotY`value, dampedRotZ`value
      ensures Valid() && (View(), moved) == Damp(old(View()))
    {
      ghost var c0 := View();
      var a1 := RunDamped(RotX);
      ghost var c1 := View();
      var a2 := RunDamped(RotY);
      ghost var c2 := View();
      var a3 := RunDamped(RotZ);
      ghost var c3 := View();
      var a4 := RunDamped(Axis.Zoom);
      ghost var c4 := View();
      var a5 := RunDamped(Axis.PanX);
      ghost var c5 := View();
      var a6 := RunDamped(Axis.PanY);
      moved := a1 || a2 || a3 || a4 || a5 || a6;
      assert (c1, a1) == RunChannel(c0, RotX);
      assert (c2, a2) == RunChannel(c1, RotY);
      assert (c3, a3) == RunChannel(c2, RotZ);
      assert (c4, a4) == RunChannel(c3, Axis.Zoom);
      assert (c5, a5) == RunChannel(c4, Axis.PanX);
      assert (View(), a6) == RunChannel(c5, Axis.PanY);
    }

    /** `stop()` of the three interpolations. */
    method StopTimers()
      requires Valid()
      modifies timedRot`active, timedPan`active, timedZoom`active
      ensures Valid() && View() == Model.StopTimers(old(View()))
    {
      timedRot.Stop();
      timedPan.Stop();
      timedZoom.Stop();
    }

    // ----- timed transitions -----

    /** `setRotation(valA, valB, t)`. */
    method SetRotationBetween(a: Rotation, b: Rotation, t: real)
      requires Valid()
      modifies this`state
      ensures Valid() && View() == RotationAt(old(View()), a, b, t)
    {
      state := state.(rotation := geo.slerp(a, b, t));
    }

    /** `setCenter(valA, valB, t)`. */
    method SetCenterBetween(a: Vec3, b: Vec3, t: real)
      requires Valid()
      modifies this`state
      ensures Valid() && View() == CenterAt(old(View()), a, b, t)
    {
      state := state.(center := Mix3(a, b, Smootherstep(t)));
    }

    /** `setDistance(valA, valB, t)`. */
    method SetDistanceBetween(a: real, b: real, t: real)
      requires Valid()
      modifies this`state
      ensures Valid() && View() == DistanceAt(old(View()), a, b, t)
    {
      state := state.(distance := Mix(a, b, Smootherstep(t)));
    }

    method SetDistance(distance: real, duration: int, now: int)
      requires Valid()
      modifies this`state, timedZoom, dampedZoom
      ensures Valid() && View() == DistanceTo(old(View()), distance, duration, now)
    {
      ghost var v0 := View();
      var tick := timedZoom.Start(state.distance, distance, duration, now, [dampedZoom]);
      assert [dampedZoom][0] == dampedZoom;
      ghost var begun := Begin(v0.state.distance, distance, duration, now);
      assert View() == v0.(momentum := Stopped(v0.momentum, Axis.Zoom), timers := v0.timers.(zoom := begun.0));
      if tick.Fire? {
        SetDistanceBetween(timedZoom.valA, timedZoom.valB, tick.t);
      }
    }

    method SetCenter(center: Vec3, duration: int, now: int)
      requires Valid()
      modifies this`state, timedPan, dampedPanX, dampedPanY
      ensures Valid() && View() == CenterTo(old(View()), center, duration, now)
    {
      ghost var v0 := View();
      var tick := timedPan.Start(state.center, center, duration, now, [dampedPanX, dampedPanY]);
      assert [dampedPanX, dampedPanY][0] == dampedPanX && [dampedPanX, dampedPanY][1] == dampedPanY;
      ghost var begun := Begin(v0.state.center, center, duration, now);
      assert View() == v0.(momentum := Stopped(Stopped(v0.momentum, Axis.PanX), Axis.PanY),
                           timers := v0.timers.(pan := begun.0));
      if tick.Fire? {
        SetCenterBetween(timedPan.valA, timedPan.valB, tick.t);
      }
    }

    method SetRotation(rotation: Rotation, duration: int, now: int)
      requires Valid()
      modifies this`state, timedRot, dampedRotX, dampedRotY, dampedRotZ
      ensures Valid() && View() == RotationTo(old(View()), rotation, duration, now)
    {
      ghost var v0 := View();
      var tick := timedRot.Start(state.rotation, rotation, duration, now, [dampedRotX, dampedRotY, dampedRotZ]);
      assert [dampedRotX, dampedRotY, dampedRotZ][0] == dampedRotX;
      assert [dampedRotX, dampedRotY, dampedRotZ][1] == dampedRotY;
      assert [dampedRotX, dampedRotY, dampedRotZ][2] == dampedRotZ;
      ghost var begun := Begin(v0.state.rotation, rotation, duration, now);
      assert View() == v0.(momentum := Stopped(Stopped(Stopped(v0.momentum, RotX), RotY), RotZ),
                           timers := v0.timers.(rot := begun.0));
      if tick.Fire? {
        SetRotationBetween(timedRot.valA, timedRot.valB, tick.t);
      }
    }

    // ----- saved states -----

    /** `getState`: a copy of the current pose. */
    function GetState(): (r: State)
      reads this, dampedZoom, dampedPanX, dampedPanY, dampedRotX, dampedRotY, dampedRotZ
      reads timedRot, timedPan, timedZoom, viewport
      requires viewport.Length == 4
      ensures r == View().state
    {
      state
    }

    method SetState(other: Option<State>, duration: int, now: int)
      requires Valid()
      modifies this`state, timedRot, timedPan, timedZoom
      modifies dampedZoom, dampedPanX, dampedPanY, dampedRotX, dampedRotY, dampedRotZ
      ensures Valid() && View() == StateTo(old(View()), other, duration, now)
    {
      if other.Some? {
        SetDistance(other.value.distance, duration, now);
        SetCenter(other.value.center, duration, now);
        SetRotation(other.value.rotation, duration, now);
      }
    }

    method PushState() returns (s: State)
      requires Valid()
      modifies this`statePushed
      ensures Valid() && (View(), s) == Model.PushState(old(View()))
    {
      statePushed := GetState();
      s := statePushed;
    }

    method PopState(duration: int, now: int)
      requires Valid()
      modifies this`state, timedRot, timedPan, timedZoom
      modifies dampedZoom, dampedPanX, dampedPanY, dampedRotX, dampedRotY, dampedRotZ
      ensures Valid() && View() == Model.PopState(old(View()), duration, now)
    {
      SetState(Some(statePushed), duration, now);
    }

    method PushResetState() returns (s: State)
      requires Valid()
      modifies this`stateReset
      ensures Valid() && (View(), s) == Model.PushResetState(old(View()))
    {
      stateReset := GetState();
      s := stateReset;
    }

    method Reset(duration: int, now: int)
      requires Valid()
      modifies this`state, timedRot, timedPan, timedZoom
      modifies dampedZoom, dampedPanX, dampedPanY, dampedRotX, dampedRotY, dampedRotZ
      ensures Valid() && View() == Model.Reset(old(View()), duration, now)
    {
      SetState(Some(stateReset), duration, now);
    }

    // ----- limits and settings -----

    method SetDistanceMin(distanceMin: real)
      requires Valid()
      modifies this`distanceMin, this`state, dampedZoom`value
      ensures Valid() && View() == DistanceMinSet(old(View()), distanceMin)
    {
      this.distanceMin := Max(distanceMin, DistanceMinLimit);
      Zoom(0.0);
    }

    method SetDistanceMax(distanceMax: real)
      requires Valid()
      modifies this`distanceMax, this`state, dampedZoom`value
      ensures Valid() && View() == DistanceMaxSet(old(View()), distanceMax)
    {
      this.distanceMax := distanceMax;
      Zoom(0.0);
    }

    method SetRotationConstraint(yaw: bool, pitch: bool, roll: bool)
      requires Valid()
      modifies this`fixedConstraint
      ensures Valid() && View() == ConstraintSet(old(View()), yaw, pitch, roll)
    {
      fixedConstraint := 0;
      fixedConstraint := fixedConstraint | (if yaw then YAW else 0);
      fixedConstraint := fixedConstraint | (if pitch then PITCH else 0);
      fixedConstraint := fixedConstraint | (if roll then ROLL else 0);
    }

    method SetDamping(damping: real)
      requires Valid()
      modifies dampedZoom`damping, dampedPanX`damping, dampedPanY`damping
      modifies dampedRotX`damping, dampedRotY`damping, dampedRotZ`damping
      ensures Valid() && View() == DampingSet(old(View()), damping)
    {
      dampedZoom.damping := damping;
      dampedPanX.damping := damping;
      dampedPanY.damping := damping;
      dampedRotX.damping := damping;
      dampedRotY.damping := damping;
      dampedRotZ.damping := damping;
    }

    method SetViewport(x: real, y: real, w: real, h: real)
      requires Valid()
      modifies viewport
      ensures Valid() && View() == ViewportSet(old(View()), x, y, w, h)
    {
      viewport[0], viewport[1] := x, y;
      viewport[2], viewport[3] := w, h;
    }

    function InsideViewport(x: real, y: real): (r: bool)
      reads this, dampedZoom, dampedPanX, dampedPanY, dampedRotX, dampedRotY, dampedRotZ
      reads timedRot, timedPan, timedZoom, viewport
      requires viewport.Length == 4
      ensures r == Inside(View().viewport, x, y)
    {
      Inside(Viewport(viewport[0], viewport[1], viewport[2], viewport[3]), x, y)
    }

    // ----- mouse and keys -----

    method MouseWheelZoom()
      requires Valid()
      modifies dampedZoom`value
      ensures Valid() && View() == WheelZoomed(old(View()))
    {
      dampedZoom.AddForce(mwheel * scaleZoomWheel);
    }

    method MouseDragZoom()
      requires Valid()
      modifies dampedZoom`value
      ensures Valid() && View() == DragZoomed(old(View()))
    {
      dampedZoom.AddForce(-dmy);
    }

    method MouseDragPan()
      requires Valid()
      modifies dampedPanX`value, dampedPanY`value
      ensures Valid() && View() == DragPanned(old(View()))
    {
      dampedPanX.AddForce(if Has(dragConstraint, YAW) then dmx else 0.0);
      dampedPanY.AddForce(if Has(dragConstraint, PITCH) then dmy else 0.0);
    }

    method MouseDragRotate()
      requires Valid()
      modifies dampedRotX`value, dampedRotY`value, dampedRotZ`value
      ensures Valid() && View() == DragRotated(old(View()))
    {
      var mxNdc := Ndc(mx, viewport[0], viewport[2]);
      var myNdc := Ndc(my, viewport[1], viewport[3]);
      if Has(dragConstraint, YAW) {
        dampedRotY.AddForce(YawForce(dmx, myNdc));
      }
      if Has(dragConstraint, PITCH) {
        dampedRotX.AddForce(PitchForce(dmy, mxNdc));
      }
      if Has(dragConstraint, ROLL) {
        dampedRotZ.AddForce(RollForceX(dmx, myNdc));
        dampedRotZ.AddForce(RollForceY(dmy, mxNdc));
      }
    }

    /** The registered mouse callback, at time `now`. */
    method MouseEvent(e: Model.MouseEvent, now: int)
      requires Valid()
      modifies this, timedRot, timedPan, timedZoom
      modifies dampedZoom, dampedPanX, dampedPanY, dampedRotX, dampedRotY, dampedRotZ
      ensures Valid() && View() == Mouse(old(View()), e, now)
    {
      ghost var c0 := View();
      Track(e);
      ghost var c := View();
      assert c == c0.(pointer := Tracked(c0.pointer, e));
      var inside := InsideViewport(mx, my);
      assert inside == Inside(c.viewport, c.pointer.mx, c.pointer.my);
      match e.action {
        case Press =>
          if inside {
            Grab();
          }
        case Wheel =>
          if inside {
            MouseWheelZoom();
          }
        case Click =>
          if inside && e.count == 2 {
            Reset(defaultInterpolationTime, now);
          }
        case Drag =>
          if dragActive {
            MouseDrag(e);
          }
        case Release =>
          Let();
        case Move =>
        case Enter =>
        case Exit =>
      }
    }

    /** The pointer bookkeeping every mouse event does first. */
    method Track(e: Model.MouseEvent)
      requires Valid()
      modifies this`mx, this`my, this`pmx, this`pmy, this`dmx, this`dmy, this`mwheel
      ensures Valid() && View() == old(View()).(pointer := Tracked(old(View()).pointer, e))
    {
      ghost var c0 := View();
      pmx, pmy := mx, my;
      mx, my := e.x, e.y;
      dmx, dmy := -(mx - pmx), -(my - pmy);
      mwheel := e.count as real;
      assert Pointer(dragActive, mx, my, pmx, pmy, dmx, dmy, mwheel) == Tracked(c0.pointer, e);
    }

    /** A press inside the viewport starts a drag and clears the Shift latch. */
    method Grab()
      requires Valid()
      modifies this`dragActive, this`shiftConstraint, this`dmx, this`dmy, this`pmx, this`pmy
      ensures Valid()
      ensures View() == old(View()).(pointer := old(View()).pointer.(dragActive := true, dmx := 0.0, dmy := 0.0, pmx := mx, pmy := my),
                                     constraints := old(View()).constraints.(shift := 0))
    {
      ghost var c0 := View();
      dragActive := true;
      shiftConstraint := 0;
      dmx, dmy := 0.0, 0.0;
      pmx, pmy := mx, my;
      assert Pointer(dragActive, mx, my, pmx, pmy, dmx, dmy, mwheel)
          == c0.pointer.(dragActive := true, dmx := 0.0, dmy := 0.0, pmx := mx, pmy := my);
    }

    /** A release ends the drag and clears the Shift latch. */
    method Let()
      requires Valid()
      modifies this`dragActive, this`shiftConstraint, this`pmx, this`pmy
      ensures Valid()
      ensures View() == old(View()).(pointer := old(View()).pointer.(dragActive := false, pmx := mx, pmy := my),
                                     constraints := old(View()).constraints.(shift := 0))
    {
      ghost var c0 := View();
      dragActive := false;
      shiftConstraint := 0;
      pmx, pmy := mx, my;
      assert Pointer(dragActive, mx, my, pmx, pmy, dmx, dmy, mwheel)
          == c0.pointer.(dragActive := false, pmx := mx, pmy := my);
    }

    /** The drag branch of the mouse callback. */
    method MouseDrag(e: Model.MouseEvent)
      requires Valid()
      modifies this`shiftConstraint, this`dragConstraint
      modifies dampedZoom`value, dampedPanX`value, dampedPanY`value
      modifies dampedRotX`value, dampedRotY`value, dampedRotZ`value
      ensures Valid() && View() == Dragged(old(View()), e)
    {
      Constrain(e);
      if e.button == Center || (e.button == Left && e.metaDown) {
        MouseDragPan();
      } else if e.button == Left {
        MouseDragRotate();
      } else if e.button == Right {
        MouseDragZoom();
      }
    }

    /** The Shift latch and the effective constraint of a drag. */
    method Constrain(e: Model.MouseEvent)
      requires Valid()
      modifies this`shiftConstraint, this`dragConstraint
      ensures Valid() && View() == Constrained(old(View()), e)
    {
      if e.shiftDown && shiftConstraint == 0 && Abs(dmx - dmy) > 1.0 {
        shiftConstraint := if Abs(dmx) > Abs(dmy) then YAW else PITCH;
      }
      dragConstraint := ALL;
      if Positive(fixedConstraint) {
        dragConstraint := fixedConstraint;
      }
      if Positive(shiftConstraint) {
        dragConstraint := shiftConstraint;
      }
    }

    /** The registered key callback. */
    method KeyEvent(e: Model.KeyEvent)
      requires Valid()
      modifies this`shiftConstraint
      ensures Valid() && View() == Key(old(View()), e)
    {
      if e.action == KeyRelease && e.shiftKey {
        shiftConstraint := 0;
      }
    }
  }

  /**
   * Decaying a channel before its action gives the same result as PeasyCam's order (action,
   * then decay): only the zoom action writes a channel, and then it writes zero.
   */
  lemma DecayFirst(cam: Cam, a: Axis, mid: Cam)
    requires IsActive(Get(cam.momentum, a).value)
    requires mid == cam.(momentum := Put(cam.momentum, a,
                 Get(cam.momentum, a).(value := Step(Get(cam.momentum, a).value, Get(cam.momentum, a).damping))))
    ensures DampedEffect(mid, a, Get(cam.momentum, a).value) == RunChannel(cam, a).0
  {
    var c := Get(cam.momentum, a);
    var v := c.value;
    assert Step(v, c.damping) == v * c.damping;
    assert RotationMult(mid) == RotationMult(cam);
    assert PanMult(mid) == PanMult(cam);
    assert ZoomMult(mid) == ZoomMult(cam);
    var lhs := DampedEffect(mid, a, v);
    var rhs := RunChannel(cam, a).0;
    if a == Axis.Zoom {
      var (d, stopped) := ZoomClamp(cam.state.distance, Scaled(v, ZoomMult(cam)), cam.distanceMin, cam.distanceMax);
      assert lhs.state == rhs.state;
      if stopped {
        assert Get(lhs.momentum, a) == Get(rhs.momentum, a);
      }
      assert lhs.momentum == rhs.momentum;
    } else {
      var eff := DampedEffect(cam, a, v);
      assert eff.momentum == cam.momentum;
      assert rhs == eff.(momentum := Put(cam.momentum, a, c.(value := v * c.damping)));
    }
  }
}
