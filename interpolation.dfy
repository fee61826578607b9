/**
 * PeasyCam.Interpolation: a timed transition of one pose component from a start value to an end
 * value. The wall clock is the parameter `now` (milliseconds). The abstract `action(t)` of the
 * Java class is returned to the owner as a Tick, which the owner dispatches on its own channel.
 */
module Timed {
  import opened Damped

  /** Progress beyond which an update snaps to the end value and completes. */
  const Completion: real := 0.995

  /** The fields of an interpolation: start and end values, start time, duration and the flag. */
  datatype Timer<T> = Timer(valA: T, valB: T, timer: int, duration: int, active: bool)

  /** What an interpolation asks of its action: nothing, or `action(t)`. */
  datatype Tick = Idle | Fire(t: real)

  /** An active transition always has a positive duration, so its progress is defined. */
  predicate WellFormed<T>(tm: Timer<T>) {
    tm.active ==> tm.duration > 0
  }

  /** Elapsed time as a fraction of the duration. */
  function Progress<T>(tm: Timer<T>, now: int): real
    requires tm.duration != 0
  {
    (now - tm.timer) as real / tm.duration as real
  }

  /**
   * `start(a, b, duration)` at time `now`: the timer is armed when the duration is positive;
   * otherwise it completes on the spot with `action(1)`.
   */
  function Begin<T>(a: T, b: T, duration: int, now: int): (r: (Timer<T>, Tick))
    ensures WellFormed(r.0)
    ensures r.0.valA == a && r.0.valB == b && r.0.timer == now && r.0.duration == duration
    ensures r.0.active <==> duration > 0
    ensures r.0.active <==> r.1 == Idle
    ensures r.1 != Idle ==> r.1 == Fire(1.0)
  {
    var tm := Timer(a, b, now, duration, duration > 0);
    (tm, if tm.active then Idle else Fire(1.0))
  }

  /** `update()` at time `now`. */
  function Advance<T>(tm: Timer<T>, now: int): (r: (Timer<T>, Tick))
    requires WellFormed(tm)
    ensures WellFormed(r.0)
    ensures r.0 == tm.(active := r.0.active)
    ensures !tm.active ==> r == (tm, Idle)
    ensures tm.active ==> r.1.Fire?
    ensures r.0.active ==> tm.active
  {
    if !tm.active then (tm, Idle)
    else
      var t := Progress(tm, now);
      if t > Completion then (tm.(active := false), Fire(1.0)) else (tm, Fire(t))
  }

  /** `stop()`: deactivates without firing. */
  function Halted<T>(tm: Timer<T>): (r: Timer<T>)
    ensures WellFormed(r) && !r.active
    ensures r == tm.(active := false)
  {
    tm.(active := false)
  }

  /**
   * An update completes the transition exactly when more than 99.5 % of the duration has
   * elapsed, and a completing update fires the end value 1 itself.
   */
  lemma AdvanceCompletes<T>(tm: Timer<T>, now: int)
    requires WellFormed(tm) && tm.active
    ensures !Advance(tm, now).0.active <==> (now - tm.timer) as real > Completion * tm.duration as real
    ensures !Advance(tm, now).0.active ==> Advance(tm, now).1 == Fire(1.0)
  {
    var e := (now - tm.timer) as real;
    var d := tm.duration as real;
    var p := Progress(tm, now);
    assert p * d == e;
    if p > Completion {
      MulPos(p - Completion, d);
      assert (p - Completion) * d == e - Completion * d;
    } else {
      MulLe(p, Completion, d);
    }
  }

  /** While the clock does not run backwards, the action only ever sees a progress in [0, 1]. */
  lemma AdvanceFiresInUnitRange<T>(tm: Timer<T>, now: int)
    requires WellFormed(tm) && now >= tm.timer
    ensures Advance(tm, now).1.Fire? ==> 0.0 <= Advance(tm, now).1.t <= 1.0
  {
    if tm.active {
      DivNonNeg((now - tm.timer) as real, tm.duration as real);
    }
  }

  /** Progress never decreases as the clock advances. */
  lemma ProgressMonotone<T>(tm: Timer<T>, now1: int, now2: int)
    requires tm.duration > 0 && now1 <= now2
    ensures Progress(tm, now1) <= Progress(tm, now2)
  {
    var d := tm.duration as real;
    var p1, p2 := Progress(tm, now1), Progress(tm, now2);
    assert p1 * d == (now1 - tm.timer) as real;
    assert p2 * d == (now2 - tm.timer) as real;
    if p1 > p2 {
      MulPos(p1 - p2, d);
      assert false;
    }
  }

  /** While running and not yet past 99.5 %, an update fires exactly the elapsed fraction and stays active. */
  lemma AdvanceRunning<T>(tm: Timer<T>, now: int)
    requires WellFormed(tm) && tm.active && Progress(tm, now) <= Completion
    ensures Advance(tm, now) == (tm, Fire(Progress(tm, now)))
  {
  }

  /**
   * The value the action receives never decreases over a transition: later updates of the same
   * running transition fire at least as much as earlier ones.
   */
  lemma AdvanceFiresMonotone<T>(tm: Timer<T>, now1: int, now2: int)
    requires WellFormed(tm) && tm.active && now1 <= now2
    ensures Advance(tm, now1).1.t <= Advance(tm, now2).1.t
  {
    ProgressMonotone(tm, now1, now2);
    if Progress(tm, now1) <= Completion {
      AdvanceRunning(tm, now1);
    }
  }

  /** A transition started with a positive duration completes on the first update a full duration later. */
  lemma BeginThenFinish<T>(a: T, b: T, duration: int, now: int, later: int)
    requires duration > 0 && later >= now + duration
    ensures Advance(Begin(a, b, duration, now).0, later) == (Begin(a, b, duration, now).0.(active := false), Fire(1.0))
  {
    var tm := Begin(a, b, duration, now).0;
    var e := (later - now) as real;
    var d := duration as real;
    assert e >= d;
    assert Completion * d < d;
    AdvanceCompletes(tm, later);
  }

  /** An update a fraction k of the way through fires exactly k when k is at most 0.995. */
  lemma AdvanceMidway<T>(tm: Timer<T>, now: int)
    requires WellFormed(tm) && tm.active
    requires 2 * (now - tm.timer) == tm.duration
    ensures Advance(tm, now) == (tm, Fire(0.5))
  {
    assert Progress(tm, now) * tm.duration as real == (now - tm.timer) as real;
    assert Progress(tm, now) == 0.5;
  }

  class Interpolation<T> {
    var valA: T
    var valB: T
    var timer: int
    var duration: int
    var active: bool

    ghost predicate Valid()
      reads this
    {
      WellFormed(View())
    }

    ghost function View(): Timer<T>
      reads this
    {
      Timer(valA, valB, timer, duration, active)
    }

    /** Both end values start as `init`: PeasyCam leaves them null until the first start. */
    constructor (init: T)
      ensures Valid() && View() == Timer(init, init, 0, 0, false)
    {
      valA, valB := init, init;
      timer, duration := 0, 0;
      active := false;
    }

    /**
     * Stops every listed damped channel, then stores the transition; returns the action the
     * owner must apply at once (Fire(1.0) when the duration is not positive).
     */
    method Start(a: T, b: T, duration: int, now: int, actions: seq<DampedAction>) returns (tick: Tick)
      modifies this, actions
      ensures Valid()
      ensures (View(), tick) == Begin(a, b, duration, now)
      ensures forall i :: 0 <= i < |actions| ==> actions[i].value == 0.0
      ensures forall i :: 0 <= i < |actions| ==> actions[i].damping == old(actions[i].damping)
    {
      for i := 0 to |actions|
        invariant forall j :: 0 <= j < i ==> actions[j].value == 0.0
        invariant forall j :: 0 <= j < |actions| ==> actions[j].damping == old(actions[j].damping)
      {
        actions[i].Stop();
      }
      valA := a;
      valB := b;
      this.duration := duration;
      timer := now;
      active := duration > 0;
      tick := if active then Idle else Fire(1.0);
    }

    /** Returns the action to apply this frame, completing the transition past 0.995. */
    method Update(now: int) returns (tick: Tick)
      requires Valid()
      modifies this`active
      ensures Valid()
      ensures (View(), tick) == Advance(old(View()), now)
    {
      tick := Idle;
      if active {
        var t := (now - timer) as real / duration as real;
        if t > Completion {
          tick := Fire(1.0);
          Stop();
        } else {
          tick := Fire(t);
        }
      }
    }

    method Stop()
      requires Valid()
      modifies this`active
      ensures Valid() && View() == Halted(old(View()))
    {
      active := false;
    }
  }
}
