/**
 * What the controller promises, proved about the functions of the Model module: the frame
 * update and its pre-emption rule, the timed transitions landing on their targets, the
 * distance limits, the drag and Shift-latch rules of the mouse handler, the per-axis gating of
 * drag forces, and the pan defect beside its corrected form.
 */
module Properties {
  import opened Utils
  import opened Geometry
  import opened Damped
  import opened Timed
  import opened Input
  import opened Model

  /** Some channel is active, so `update` will run at least one damped action this frame. */
  predicate Moving(m: Momentum) {
    exists a :: IsActive(Get(m, a).value)
  }

  /** Every channel holds exactly zero. */
  predicate AtRest(m: Momentum) {
    forall a :: Get(m, a).value == 0.0
  }

  /** The channels with their values zeroed and their dampings kept. */
  function Rested(m: Momentum): (r: Momentum)
    ensures AtRest(r)
    ensures forall a :: Get(r, a).damping == Get(m, a).damping
  {
    Momentum(m.rotX.(value := 0.0), m.rotY.(value := 0.0), m.rotZ.(value := 0.0),
             m.zoom.(value := 0.0), m.panX.(value := 0.0), m.panY.(value := 0.0))
  }

  /** Two momenta that agree on every channel are equal. */
  lemma MomentumExt(m1: Momentum, m2: Momentum)
    requires forall a :: Get(m1, a) == Get(m2, a)
    ensures m1 == m2
  {
    assert Get(m1, RotX) == Get(m2, RotX) && Get(m1, RotY) == Get(m2, RotY);
    assert Get(m1, RotZ) == Get(m2, RotZ) && Get(m1, Zoom) == Get(m2, Zoom);
    assert Get(m1, PanX) == Get(m2, PanX) && Get(m1, PanY) == Get(m2, PanY);
  }

  // ----- the frame -----

  /**
   * One channel's update: its value decays by one Step (the zoom channel may instead be stopped
   * by its own clamp), its damping is kept, and the other five channels are untouched. Only the
   * pose and the momentum change.
   */
  lemma RunChannelMomentum(cam: Cam, a: Axis, r: Cam)
    requires r == RunChannel(cam, a).0
    ensures r == cam.(state := r.state, momentum := r.momentum)
    ensures forall b :: b != a ==> Get(r.momentum, b) == Get(cam.momentum, b)
    ensures Get(r.momentum, a).damping == Get(cam.momentum, a).damping
    ensures a != Zoom ==> Get(r.momentum, a).value == Step(Get(cam.momentum, a).value, Get(cam.momentum, a).damping)
    ensures a == Zoom ==> Get(r.momentum, a).value == Step(Get(cam.momentum, a).value, Get(cam.momentum, a).damping) ||
                          Get(r.momentum, a).value == 0.0
  {
    var c := Get(cam.momentum, a);
    if IsActive(c.value) {
      var cam1 := DampedEffect(cam, a, c.value);
      var c1 := Get(cam1.momentum, a);
      if a == Zoom {
        assert c1 == c || (c1.value == 0.0 && c1.damping == c.damping);
        if c1 != c {
          assert c1.value * c1.damping == 0.0;
        }
      } else {
        assert c1 == c;
      }
    }
  }

  /** A channel whose value is not active is zeroed and the pose is left alone. */
  lemma RunChannelIdle(cam: Cam, a: Axis)
    requires !IsActive(Get(cam.momentum, a).value)
    ensures RunChannel(cam, a) == (cam.(momentum := Stopped(cam.momentum, a)), false)
  {
  }

  /**
   * `update` runs all six channels: each non-zoom channel decays by exactly one Step, the zoom
   * channel by one Step or to zero, every damping is kept, and the frame counts as moving exactly
   * when some channel was active before it.
   */
  lemma DampMomentum(cam: Cam)
    ensures var (r, moved) := Damp(cam);
      r == cam.(state := r.state, momentum := r.momentum) &&
      (forall a :: Get(r.momentum, a).damping == Get(cam.momentum, a).damping) &&
      (forall a :: a != Zoom ==> Get(r.momentum, a).value == Step(Get(cam.momentum, a).value, Get(cam.momentum, a).damping)) &&
      (Get(r.momentum, Zoom).value == Step(Get(cam.momentum, Zoom).value, Get(cam.momentum, Zoom).damping) ||
       Get(r.momentum, Zoom).value == 0.0) &&
      (moved <==> Moving(cam.momentum))
  {
    var (c1, a1) := RunChannel(cam, RotX);
    var (c2, a2) := RunChannel(c1, RotY);
    var (c3, a3) := RunChannel(c2, RotZ);
    var (c4, a4) := RunChannel(c3, Zoom);
    var (c5, a5) := RunChannel(c4, PanX);
    var (c6, a6) := RunChannel(c5, PanY);
    assert Damp(cam) == (c6, a1 || a2 || a3 || a4 || a5 || a6);
    DampSteps(cam, c1, c2, c3, c4, c5, c6, a1, a2, a3, a4, a5, a6);
  }

  /** DampMomentum over the six intermediate values of the frame, named. */
  lemma DampSteps(cam: Cam, c1: Cam, c2: Cam, c3: Cam, c4: Cam, c5: Cam, c6: Cam,
                  a1: bool, a2: bool, a3: bool, a4: bool, a5: bool, a6: bool)
    requires (c1, a1) == RunChannel(cam, RotX) && (c2, a2) == RunChannel(c1, RotY)
    requires (c3, a3) == RunChannel(c2, RotZ) && (c4, a4) == RunChannel(c3, Zoom)
    requires (c5, a5) == RunChannel(c4, PanX) && (c6, a6) == RunChannel(c5, PanY)
    ensures c6 == cam.(state := c6.state, momentum := c6.momentum)
    ensures forall a :: Get(c6.momentum, a).damping == Get(cam.momentum, a).damping
    ensures forall a :: a != Zoom ==> Get(c6.momentum, a).value == Step(Get(cam.momentum, a).value, Get(cam.momentum, a).damping)
    ensures Get(c6.momentum, Zoom).value == Step(Get(cam.momentum, Zoom).value, Get(cam.momentum, Zoom).damping) ||
            Get(c6.momentum, Zoom).value == 0.0
    ensures (a1 || a2 || a3 || a4 || a5 || a6) <==> Moving(cam.momentum)
  {
    var m, m1, m2, m3, m4, m5, m6 := cam.momentum, c1.momentum, c2.momentum, c3.momentum, c4.momentum, c5.momentum, c6.momentum;
    RunChannelMomentum(cam, RotX, c1);
    RunChannelMomentum(c1, RotY, c2);
    RunChannelMomentum(c2, RotZ, c3);
    RunChannelMomentum(c3, Zoom, c4);
    RunChannelMomentum(c4, PanX, c5);
    RunChannelMomentum(c5, PanY, c6);
    assert Get(m6, RotX) == Get(m1, RotX);
    assert Get(m6, RotY) == Get(m2, RotY) && Get(m1, RotY) == Get(m, RotY);
    assert Get(m6, RotZ) == Get(m3, RotZ) && Get(m2, RotZ) == Get(m, RotZ);
    assert Get(m6, Zoom) == Get(m4, Zoom) && Get(m3, Zoom) == Get(m, Zoom);
    assert Get(m6, PanX) == Get(m5, PanX) && Get(m4, PanX) == Get(m, PanX);
    assert Get(m5, PanY) == Get(m, PanY);
    ActiveChannels(m, a1, a2, a3, a4, a5, a6);
  }

  /** The moving test of `update`, one channel's flag at a time. */
  lemma ActiveChannels(m: Momentum, a1: bool, a2: bool, a3: bool, a4: bool, a5: bool, a6: bool)
    requires a1 == IsActive(Get(m, RotX).value) && a2 == IsActive(Get(m, RotY).value)
    requires a3 == IsActive(Get(m, RotZ).value) && a4 == IsActive(Get(m, Zoom).value)
    requires a5 == IsActive(Get(m, PanX).value) && a6 == IsActive(Get(m, PanY).value)
    ensures (a1 || a2 || a3 || a4 || a5 || a6) <==> Moving(m)
  {
    if Moving(m) {
      var a :| IsActive(Get(m, a).value);
      match a
      case RotX =>
      case RotY =>
      case RotZ =>
      case Zoom =>
      case PanX =>
      case PanY =>
    }
  }

  /**
   * With no active channel, the damped part of `update` only zeroes the channels: the pose is
   * left alone and the frame does not count as moving.
   */
  lemma DampIdle(cam: Cam)
    requires !Moving(cam.momentum)
    ensures Damp(cam) == (cam.(momentum := Rested(cam.momentum)), false)
  {
    var m := cam.momentum;
    assert !IsActive(Get(m, RotX).value) && !IsActive(Get(m, RotY).value);
    assert !IsActive(Get(m, RotZ).value) && !IsActive(Get(m, Zoom).value);
    assert !IsActive(Get(m, PanX).value) && !IsActive(Get(m, PanY).value);
    var m6 := Stopped(Stopped(Stopped(Stopped(Stopped(Stopped(m, RotX), RotY), RotZ), Zoom), PanX), PanY);
    RunChannelIdle(cam, RotX);
    var c1 := cam.(momentum := Stopped(m, RotX));
    RunChannelIdle(c1, RotY);
    var c2 := c1.(momentum := Stopped(c1.momentum, RotY));
    RunChannelIdle(c2, RotZ);
    var c3 := c2.(momentum := Stopped(c2.momentum, RotZ));
    RunChannelIdle(c3, Zoom);
    var c4 := c3.(momentum := Stopped(c3.momentum, Zoom));
    RunChannelIdle(c4, PanX);
    var c5 := c4.(momentum := Stopped(c4.momentum, PanX));
    RunChannelIdle(c5, PanY);
    assert Damp(cam) == (cam.(momentum := m6), false);
    MomentumExt(m6, Rested(m));
  }

  /**
   * The frame's effect on the channels: whatever the timers do, each channel decays by one
   * Step (zoom: one Step or to zero) and keeps its damping.
   */
  lemma FrameMomentum(cam: Cam, now: int)
    requires Wf(cam)
    ensures var r := Frame(cam, now);
      (forall a :: Get(r.momentum, a).damping == Get(cam.momentum, a).damping) &&
      (forall a :: a != Zoom ==> Get(r.momentum, a).value == Step(Get(cam.momentum, a).value, Get(cam.momentum, a).damping)) &&
      (Get(r.momentum, Zoom).value == Step(Get(cam.momentum, Zoom).value, Get(cam.momentum, Zoom).damping) ||
       Get(r.momentum, Zoom).value == 0.0)
  {
    DampMomentum(cam);
  }

  /**
   * When any channel is active, `update` stops all three transitions and none of their actions
   * runs this frame: the pose is what the damped actions left, and every timer is halted.
   */
  lemma FramePreemptsTimers(cam: Cam, now: int)
    requires Wf(cam) && Moving(cam.momentum)
    ensures Frame(cam, now).state == Damp(cam).0.state
    ensures Frame(cam, now).timers ==
            Timers(Halted(cam.timers.rot), Halted(cam.timers.pan), Halted(cam.timers.zoom))
  {
    DampMomentum(cam);
  }

  /** When no channel is active, the frame zeroes the channels and advances the three transitions. */
  lemma QuietFrameRunsTimers(cam: Cam, now: int)
    requires Wf(cam) && !Moving(cam.momentum)
    ensures Frame(cam, now) == Model.RunTimers(cam.(momentum := Rested(cam.momentum)), now)
  {
    DampIdle(cam);
  }

  /** A momentum at rest is not moving, and resting it again changes nothing. */
  lemma AtRestIsQuiet(m: Momentum)
    requires AtRest(m)
    ensures !Moving(m) && Rested(m) == m
  {
    forall a ensures !IsActive(Get(m, a).value) {
      assert Get(m, a).value == 0.0;
    }
    MomentumExt(Rested(m), m);
  }

  /** The transitions change only the pose and the timers. */
  lemma RunTimersFrame(cam: Cam, now: int)
    requires Wf(cam)
    ensures var r := Model.RunTimers(cam, now);
      r == cam.(state := r.state, timers := r.timers) &&
      (!cam.timers.zoom.active ==> r.state.distance == cam.state.distance && r.timers.zoom == cam.timers.zoom)
  {
  }

  /** One channel's update keeps the distance inside limits that are consistent. */
  lemma RunChannelKeepsLimits(cam: Cam, a: Axis, r: Cam)
    requires r == RunChannel(cam, a).0
    requires cam.distanceMin <= cam.distanceMax
    requires cam.distanceMin <= cam.state.distance <= cam.distanceMax
    ensures r.distanceMin == cam.distanceMin && r.distanceMax == cam.distanceMax
    ensures r.distanceMin <= r.state.distance <= r.distanceMax
  {
    RunChannelMomentum(cam, a, r);
    var c := Get(cam.momentum, a);
    if IsActive(c.value) && a != Zoom {
      var cam1 := DampedEffect(cam, a, c.value);
      assert cam1.state.distance == cam.state.distance;
    }
  }

  /**
   * With consistent limits, a distance inside them and no distance transition under way, a
   * frame leaves the distance inside the limits: the damped zoom is clamped, and nothing else
   * writes the distance.
   */
  lemma FrameKeepsDistanceLimits(cam: Cam, now: int)
    requires Wf(cam) && cam.distanceMin <= cam.distanceMax
    requires cam.distanceMin <= cam.state.distance <= cam.distanceMax
    requires !cam.timers.zoom.active
    ensures var r := Frame(cam, now);
      r.distanceMin == cam.distanceMin && r.distanceMax == cam.distanceMax &&
      r.distanceMin <= r.state.distance <= r.distanceMax
  {
    var (c1, a1) := RunChannel(cam, RotX);
    RunChannelKeepsLimits(cam, RotX, c1);
    RunChannelMomentum(cam, RotX, c1);
    var (c2, a2) := RunChannel(c1, RotY);
    RunChannelKeepsLimits(c1, RotY, c2);
    RunChannelMomentum(c1, RotY, c2);
    var (c3, a3) := RunChannel(c2, RotZ);
    RunChannelKeepsLimits(c2, RotZ, c3);
    RunChannelMomentum(c2, RotZ, c3);
    var (c4, a4) := RunChannel(c3, Zoom);
    RunChannelKeepsLimits(c3, Zoom, c4);
    RunChannelMomentum(c3, Zoom, c4);
    var (c5, a5) := RunChannel(c4, PanX);
    RunChannelKeepsLimits(c4, PanX, c5);
    RunChannelMomentum(c4, PanX, c5);
    var (c6, a6) := RunChannel(c5, PanY);
    RunChannelKeepsLimits(c5, PanY, c6);
    RunChannelMomentum(c5, PanY, c6);
    assert Damp(cam) == (c6, a1 || a2 || a3 || a4 || a5 || a6);
    assert c6.timers == cam.timers;
    RunTimersFrame(c6, now);
  }

  // ----- timed transitions -----

  /**
   * A distance transition started with every channel at rest lands exactly on its target on the
   * first frame a full duration later, and is then finished.
   */
  lemma TimedDistanceLands(cam: Cam, distance: real, duration: int, now: int, later: int)
    requires Wf(cam) && AtRest(cam.momentum)
    requires duration > 0 && later >= now + duration
    ensures Frame(DistanceTo(cam, distance, duration, now), later).state.distance == distance
    ensures !Frame(DistanceTo(cam, distance, duration, now), later).timers.zoom.active
  {
    var c := DistanceTo(cam, distance, duration, now);
    var tm := Begin(cam.state.distance, distance, duration, now).0;
    assert c == cam.(momentum := Stopped(cam.momentum, Zoom), timers := cam.timers.(zoom := tm));
    assert AtRest(c.momentum) by {
      forall a ensures Get(c.momentum, a).value == 0.0 {
        if a != Zoom {
          assert Get(c.momentum, a) == Get(cam.momentum, a);
        }
      }
    }
    AtRestIsQuiet(c.momentum);
    QuietFrameRunsTimers(c, later);
    assert c.(momentum := Rested(c.momentum)) == c;
    BeginThenFinish(cam.state.distance, distance, duration, now, later);
    TimersLand(c, later, tm);
  }

  /** RunTimers on a pose whose zoom timer completes: the distance is the timer's end value. */
  lemma TimersLand(c: Cam, now: int, tm: Timer<real>)
    requires Wf(c) && c.timers.zoom == tm
    requires Advance(tm, now) == (tm.(active := false), Fire(1.0))
    ensures Model.RunTimers(c, now).state.distance == tm.valB
    ensures !Model.RunTimers(c, now).timers.zoom.active
  {
  }

  /**
   * The timed distance path never clamps: a transition toward a target outside the distance
   * limits lands outside them, both when animated and when the duration is not positive. In
   * particular a target of 0 puts the camera on its look-at point, below the 0.001 floor that
   * `setDistanceMin` and `zoom` keep.
   */
  lemma TimedDistanceIgnoresLimits(cam: Cam, target: real, duration: int, now: int, later: int)
    requires Wf(cam) && AtRest(cam.momentum)
    requires duration > 0 && later >= now + duration
    requires !(cam.distanceMin <= target <= cam.distanceMax)
    ensures var d := Frame(DistanceTo(cam, target, duration, now), later).state.distance;
      d == target && !(cam.distanceMin <= d <= cam.distanceMax)
    ensures var d := DistanceTo(cam, target, 0, now).state.distance;
      d == target && !(cam.distanceMin <= d <= cam.distanceMax)
    ensures target == 0.0 ==> Frame(DistanceTo(cam, target, duration, now), later).state.distance < DistanceMinLimit
  {
    TimedDistanceLands(cam, target, duration, now, later);
  }

  /**
   * Half way through its duration, with every channel at rest, a distance transition is exactly
   * half way between the start and the target: the easing is symmetric about its midpoint.
   */
  lemma TimedDistanceMidway(cam: Cam, distance: real, duration: int, now: int, later: int)
    requires Wf(cam) && AtRest(cam.momentum)
    requires duration > 0 && 2 * (later - now) == duration
    ensures Frame(DistanceTo(cam, distance, duration, now), later).state.distance
            == (cam.state.distance + distance) / 2.0
  {
    var c := DistanceTo(cam, distance, duration, now);
    var tm := Begin(cam.state.distance, distance, duration, now).0;
    assert c == cam.(momentum := Stopped(cam.momentum, Zoom), timers := cam.timers.(zoom := tm));
    assert AtRest(c.momentum) by {
      forall a ensures Get(c.momentum, a).value == 0.0 {
        if a != Zoom {
          assert Get(c.momentum, a) == Get(cam.momentum, a);
        }
      }
    }
    AtRestIsQuiet(c.momentum);
    QuietFrameRunsTimers(c, later);
    assert c.(momentum := Rested(c.momentum)) == c;
    AdvanceMidway(tm, later);
    TimersMidway(c, later, tm);
  }

  lemma TimersMidway(c: Cam, now: int, tm: Timer<real>)
    requires Wf(c) && c.timers.zoom == tm
    requires Advance(tm, now) == (tm, Fire(0.5))
    ensures Model.RunTimers(c, now).state.distance == (tm.valA + tm.valB) / 2.0
  {
    assert Smootherstep(0.5) == 0.5;
    assert Mix(tm.valA, tm.valB, 0.5) == (tm.valA + tm.valB) / 2.0;
  }

  /**
   * A transition with a non-positive duration completes on the spot: the distance and the center
   * are the targets at once and the timers stay idle; the rotation is the library's slerp at 1.
   */
  lemma ImmediateStateTo(cam: Cam, s: State, duration: int, now: int)
    requires Wf(cam) && duration <= 0
    ensures var r := StateTo(cam, Some(s), duration, now);
      r.state == State(s.distance, s.center, cam.geo.slerp(cam.state.rotation, s.rotation, 1.0)) &&
      !r.timers.rot.active && !r.timers.pan.active && !r.timers.zoom.active
  {
    var c1 := DistanceTo(cam, s.distance, duration, now);
    assert c1.state == cam.state.(distance := s.distance);
    var c2 := CenterTo(c1, s.center, duration, now);
    assert c2.state == c1.state.(center := s.center);
  }

  /**
   * `setState(s, duration)` with a positive duration stops every channel, arms all three
   * transitions from the current pose toward s, and leaves the pose where it is until the next
   * frame. A null state changes nothing.
   */
  lemma StateToTargets(cam: Cam, other: Option<State>, duration: int, now: int)
    requires Wf(cam) && duration > 0
    ensures var r := StateTo(cam, other, duration, now);
      (other.None? ==> r == cam) &&
      (other.Some? ==>
        r == cam.(momentum := r.momentum, timers := r.timers) &&
        AtRest(r.momentum) &&
        r.timers.zoom == Timer(cam.state.distance, other.value.distance, now, duration, true) &&
        r.timers.pan == Timer(cam.state.center, other.value.center, now, duration, true) &&
        r.timers.rot == Timer(cam.state.rotation, other.value.rotation, now, duration, true))
  {
    if other.Some? {
      var s := other.value;
      var c1 := DistanceTo(cam, s.distance, duration, now);
      var c2 := CenterTo(c1, s.center, duration, now);
      var r := RotationTo(c2, s.rotation, duration, now);
      assert c1.state == cam.state && c2.state == cam.state && r.state == cam.state;
      assert forall a :: Get(r.momentum, a).value == 0.0 by {
        forall a ensures Get(r.momentum, a).value == 0.0 {
          match a
          case RotX =>
          case RotY =>
          case RotZ =>
          case Zoom => assert Get(r.momentum, Zoom) == Get(c1.momentum, Zoom);
          case PanX => assert Get(r.momentum, PanX) == Get(c2.momentum, PanX);
          case PanY => assert Get(r.momentum, PanY) == Get(c2.momentum, PanY);
        }
      }
    }
  }

  /** `popState` heads for the pushed snapshot and `reset` for the reset snapshot. */
  lemma PopAndResetTargets(cam: Cam, duration: int, now: int)
    requires Wf(cam) && duration > 0
    ensures PopState(cam, duration, now).timers.zoom.valB == cam.statePushed.distance
    ensures PopState(cam, duration, now).timers.pan.valB == cam.statePushed.center
    ensures PopState(cam, duration, now).timers.rot.valB == cam.statePushed.rotation
    ensures Reset(cam, duration, now).timers.zoom.valB == cam.stateReset.distance
    ensures Reset(cam, duration, now).timers.pan.valB == cam.stateReset.center
    ensures Reset(cam, duration, now).timers.rot.valB == cam.stateReset.rotation
  {
    StateToTargets(cam, Some(cam.statePushed), duration, now);
    StateToTargets(cam, Some(cam.stateReset), duration, now);
  }

  /** Pushing then popping with an immediate transition returns to the pushed pose (up to slerp at 1). */
  lemma PushThenPop(cam: Cam, duration: int, now: int)
    requires Wf(cam) && duration <= 0
    ensures var r := PopState(PushState(cam).0, duration, now);
      r.state.distance == cam.state.distance && r.state.center == cam.state.center &&
      r.statePushed == cam.state
  {
    var c := PushState(cam).0;
    ImmediateStateTo(c, c.statePushed, duration, now);
  }

  // ----- distance limits -----

  /**
   * `zoom(dz)` with consistent limits keeps the distance inside them. A step that stays inside
   * is taken as is and leaves the channels alone; a step that leaves the range lands on the limit
   * it crossed (the minimum below, the maximum above) and stops the zoom channel and nothing else.
   */
  lemma ZoomStaysInLimits(cam: Cam, dz: real)
    requires cam.distanceMin <= cam.distanceMax
    ensures var r := Zoomed(cam, dz);
      cam.distanceMin <= r.state.distance <= cam.distanceMax &&
      (cam.distanceMin <= cam.state.distance + dz <= cam.distanceMax ==>
         r.state.distance == cam.state.distance + dz && r.momentum == cam.momentum) &&
      (!(cam.distanceMin <= cam.state.distance + dz <= cam.distanceMax) ==>
         r.momentum == Stopped(cam.momentum, Zoom)) &&
      (cam.state.distance + dz < cam.distanceMin ==> r.state.distance == cam.distanceMin) &&
      (cam.state.distance + dz > cam.distanceMax ==> r.state.distance == cam.distanceMax)
  {
  }

  /** A second clamp after a zoom changes nothing: the clamp is idempotent. */
  lemma ZoomClampIdempotent(cam: Cam, dz: real)
    requires cam.distanceMin <= cam.distanceMax
    ensures Zoomed(Zoomed(cam, dz), 0.0) == Zoomed(cam, dz)
  {
    var r := Zoomed(cam, dz);
    assert cam.distanceMin <= r.state.distance <= cam.distanceMax;
    assert r.state.distance + 0.0 == r.state.distance;
  }

  /**
   * `setDistanceMin(m)`: the stored minimum is never below the lower limit, and when it does not
   * exceed the maximum the distance is pulled inside the new range; a distance already inside is
   * kept, and the channels with it.
   */
  lemma DistanceMinSetClamps(cam: Cam, m: real)
    requires Max(m, DistanceMinLimit) <= cam.distanceMax
    ensures var r := DistanceMinSet(cam, m);
      r.distanceMin >= DistanceMinLimit &&
      r.distanceMin <= r.state.distance <= r.distanceMax &&
      (r.distanceMin <= cam.state.distance <= cam.distanceMax ==> r.state == cam.state && r.momentum == cam.momentum)
  {
    ZoomStaysInLimits(cam.(distanceMin := Max(m, DistanceMinLimit)), 0.0);
  }

  /** `setDistanceMax(m)` at or above the minimum pulls the distance inside the new range. */
  lemma DistanceMaxSetClamps(cam: Cam, m: real)
    requires cam.distanceMin <= m
    ensures var r := DistanceMaxSet(cam, m);
      r.distanceMin <= r.state.distance <= r.distanceMax &&
      (cam.distanceMin <= cam.state.distance <= m ==> r.state == cam.state && r.momentum == cam.momentum)
  {
    ZoomStaysInLimits(cam.(distanceMax := m), 0.0);
  }

  // ----- mouse and keys -----

  /**
   * A press starts a drag exactly when it lands strictly inside the viewport; it then clears the
   * Shift latch and the deltas. A press outside only records the pointer.
   */
  lemma PressStartsDragInside(cam: Cam, e: MouseEvent, now: int)
    requires Wf(cam) && e.action == Press
    ensures var r := Mouse(cam, e, now);
      (Inside(cam.viewport, e.x, e.y) ==>
         r.pointer.dragActive && r.constraints.shift == 0 && r.pointer.dmx == 0.0 && r.pointer.dmy == 0.0 &&
         r.pointer.pmx == e.x && r.pointer.pmy == e.y && r.momentum == cam.momentum) &&
      (!Inside(cam.viewport, e.x, e.y) ==> r == cam.(pointer := Tracked(cam.pointer, e)))
  {
  }

  /** A drag while no drag is active only records the pointer. */
  lemma IdleDragOnlyTracks(cam: Cam, e: MouseEvent, now: int)
    requires Wf(cam) && e.action == Drag && !cam.pointer.dragActive
    ensures Mouse(cam, e, now) == cam.(pointer := Tracked(cam.pointer, e))
  {
  }

  /**
   * During a drag the effective constraint is the Shift latch when set, else the fixed
   * constraint when set, else all axes; it is never empty.
   */
  lemma DragConstraintPriority(cam: Cam, e: MouseEvent, now: int)
    requires Wf(cam) && e.action == Drag && cam.pointer.dragActive
    ensures var r := Mouse(cam, e, now);
      var k := r.constraints;
      k.fixed == cam.constraints.fixed && Positive(k.drag) &&
      (Positive(k.shift) ==> k.drag == k.shift) &&
      (!Positive(k.shift) && Positive(k.fixed) ==> k.drag == k.fixed) &&
      (!Positive(k.shift) && !Positive(k.fixed) ==> k.drag == ALL)
  {
    var c := Constrained(cam.(pointer := Tracked(cam.pointer, e)), e);
    assert Mouse(cam, e, now).constraints == c.constraints;
  }

  /** The Shift latch holds nothing, YAW or PITCH. */
  predicate LatchOk(shift: Mask) {
    shift == 0 || shift == YAW || shift == PITCH
  }

  /** A timed reset touches only the pose, the channels and the timers. */
  lemma StateToKeepsInput(cam: Cam, other: Option<State>, duration: int, now: int)
    requires Wf(cam)
    ensures var r := StateTo(cam, other, duration, now);
      r == cam.(state := r.state, momentum := r.momentum, timers := r.timers)
  {
  }

  /**
   * The latch is only ever nothing, YAW or PITCH; once latched it survives every mouse event
   * but a press or a release, and every key event but the release of Shift, which clear it.
   */
  lemma ShiftLatchRules(cam: Cam, e: MouseEvent, k: KeyEvent, now: int)
    requires Wf(cam) && LatchOk(cam.constraints.shift)
    ensures LatchOk(Mouse(cam, e, now).constraints.shift)
    ensures LatchOk(Key(cam, k).constraints.shift)
    ensures cam.constraints.shift != 0 && e.action != Press && e.action != Release ==>
            Mouse(cam, e, now).constraints.shift == cam.constraints.shift
    ensures e.action == Release ==>
            Mouse(cam, e, now).constraints.shift == 0 && !Mouse(cam, e, now).pointer.dragActive
    ensures Key(cam, k).constraints.shift == (if k.action == KeyRelease && k.shiftKey then 0 else cam.constraints.shift)
  {
    var c := cam.(pointer := Tracked(cam.pointer, e));
    if e.action == Click {
      StateToKeepsInput(c, Some(c.stateReset), c.defaultTime, now);
    }
    if e.action == Drag && c.pointer.dragActive {
      assert Mouse(cam, e, now).constraints.shift == Constrained(c, e).constraints.shift;
    }
  }

  /**
   * Pan and rotate forces respect the effective constraint: without PITCH the x-rotation and
   * vertical pan channels keep their values, without YAW the y-rotation and horizontal pan
   * channels do, and without ROLL the z-rotation channel does. A drag never touches the channels
   * of another button's gesture.
   */
  lemma DragGating(cam: Cam, e: MouseEvent, now: int)
    requires Wf(cam) && e.action == Drag
    ensures var r := Mouse(cam, e, now);
      var d := r.constraints.drag;
      (!Has(d, PITCH) ==> Get(r.momentum, RotX) == Get(cam.momentum, RotX) && Get(r.momentum, PanY) == Get(cam.momentum, PanY)) &&
      (!Has(d, YAW) ==> Get(r.momentum, RotY) == Get(cam.momentum, RotY) && Get(r.momentum, PanX) == Get(cam.momentum, PanX)) &&
      (!Has(d, ROLL) ==> Get(r.momentum, RotZ) == Get(cam.momentum, RotZ))
  {
    var c := cam.(pointer := Tracked(cam.pointer, e));
    if c.pointer.dragActive {
      var c1 := Constrained(c, e);
      assert c1.momentum == cam.momentum;
      var d := c1.constraints.drag;
      if e.button == Center || (e.button == Left && e.metaDown) {
        var m1 := Pushed(cam.momentum, PanX, if Has(d, YAW) then c1.pointer.dmx else 0.0);
        var m2 := Pushed(m1, PanY, if Has(d, PITCH) then c1.pointer.dmy else 0.0);
        assert Mouse(cam, e, now).momentum == m2;
      } else if e.button == Left {
        assert Mouse(cam, e, now) == DragRotated(c1);
      }
    }
  }

  /**
   * A rotate drag adds to each rotation channel at most the pointer delta that drives it: the
   * falloff toward the viewport's edges only weakens the force.
   */
  lemma RotateDragBounded(cam: Cam)
    ensures var r := DragRotated(cam);
      var p := cam.pointer;
      Abs(Get(r.momentum, RotY).value - Get(cam.momentum, RotY).value) <= Abs(p.dmx) &&
      Abs(Get(r.momentum, RotX).value - Get(cam.momentum, RotX).value) <= Abs(p.dmy) &&
      Abs(Get(r.momentum, RotZ).value - Get(cam.momentum, RotZ).value) <= Abs(p.dmx) + Abs(p.dmy) &&
      r == cam.(momentum := r.momentum) &&
      Get(r.momentum, Zoom) == Get(cam.momentum, Zoom) &&
      Get(r.momentum, PanX) == Get(cam.momentum, PanX) && Get(r.momentum, PanY) == Get(cam.momentum, PanY)
  {
    var p := cam.pointer;
    var vp := cam.viewport;
    var mxNdc := Ndc(p.mx, vp.x, vp.w);
    var myNdc := Ndc(p.my, vp.y, vp.h);
    ForcesBounded(p.dmx, p.dmy, mxNdc, myNdc);
    var m := cam.momentum;
    var r := DragRotated(cam).momentum;
    var d := cam.constraints.drag;
    var z := Get(m, RotZ).value;
    var rx, ry := RollForceX(p.dmx, myNdc), RollForceY(p.dmy, mxNdc);
    if Has(d, ROLL) {
      assert Get(r, RotZ).value == z + rx + ry;
      assert Abs(rx + ry) <= Abs(rx) + Abs(ry);
    }
  }

  // ----- pan -----

  /** PeasyCam's `pan(dx, dy)` ignores dy: it pans by dx along both axes. */
  lemma PanAsWrittenIgnoresDy(cam: Cam, dx: real, dy: real)
    ensures PannedAsWritten(cam, dx, dy) == Panned(cam, dx, dx)
  {
  }

  /**
   * A concrete witness of the defect: with a camera whose rotation keeps the y axis in place, a
   * purely vertical pan leaves the center where it was, where the intended pan moves it up.
   */
  lemma PanAsWrittenDropsVertical(cam: Cam)
    requires cam.geo.rotate(cam.state.rotation, PlusJ) == PlusJ
    ensures PannedAsWritten(cam, 0.0, 1.0) == cam
    ensures Panned(cam, 0.0, 1.0).state.center == Add(cam.state.center, PlusJ)
    ensures PannedAsWritten(cam, 0.0, 1.0) != Panned(cam, 0.0, 1.0)
  {
    assert Vec3(0.0, 1.0, 0.0) == PlusJ;
    var r := Panned(cam, 0.0, 1.0);
    assert r.state.center.y == cam.state.center.y + 1.0;
  }

  /**
   * The intended `pan(dx, dy)`: for a rotation that maps sums to sums, the center moves by the
   * camera-relative offset (dx, dy, 0).
   */
  lemma PanMovesByOffset(cam: Cam, dx: real, dy: real)
    requires var R, f := cam.state.rotation, cam.geo.rotate;
      f(R, Origin) == Origin &&
      Add(f(R, Vec3(dx, 0.0, 0.0)), f(R, Vec3(0.0, dy, 0.0))) == f(R, Vec3(dx, dy, 0.0))
    ensures Panned(cam, dx, dy) ==
            cam.(state := cam.state.(center := Add(cam.state.center, cam.geo.rotate(cam.state.rotation, Vec3(dx, dy, 0.0)))))
  {
    var R, f, c := cam.state.rotation, cam.geo.rotate, cam.state.center;
    if dx == 0.0 && dy == 0.0 {
      assert Vec3(dx, dy, 0.0) == Origin;
      assert Add(c, Origin) == c;
    } else if dx == 0.0 {
      assert Vec3(0.0, dy, 0.0) == Vec3(dx, dy, 0.0);
    } else if dy == 0.0 {
      assert Vec3(dx, 0.0, 0.0) == Vec3(dx, dy, 0.0);
    } else {
      var a, b := f(R, Vec3(dx, 0.0, 0.0)), f(R, Vec3(0.0, dy, 0.0));
      assert Add(Add(c, a), b) == Add(c, Add(a, b));
    }
  }

  /** Panning along x then y equals panning along y then x: the rotation is read, never written. */
  lemma PanOrderIrrelevant(cam: Cam, dx: real, dy: real)
    ensures PannedY(PannedX(cam, dx), dy) == PannedX(PannedY(cam, dy), dx)
  {
    var R, f, c := cam.state.rotation, cam.geo.rotate, cam.state.center;
    var a, b := f(R, Vec3(dx, 0.0, 0.0)), f(R, Vec3(0.0, dy, 0.0));
    assert Add(Add(c, a), b) == Add(Add(c, b), a);
  }
}
