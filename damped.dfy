/**
 * PeasyCam.DampedAction: a scalar momentum channel. A force accumulates into `value`; every
 * frame the owner's action receives the value, which then decays geometrically by `damping`
 * until its square no longer exceeds the threshold, when it snaps to exactly zero.
 */
module Damped {
  import opened Utils

  /** value * value must exceed this for the channel to be active (0.000001 in PeasyCam). */
  const Threshold: real := 0.000001

  const DefaultDamping: real := 0.85

  predicate IsActive(value: real) {
    value * value > Threshold
  }

  /**
   * The value after one update with no force added and no interference from the action: an
   * inactive value snaps to exactly zero, and a positive damping keeps an active value's sign.
   */
  function Step(value: real, damping: real): (r: real)
    ensures !IsActive(value) ==> r == 0.0
    ensures IsActive(value) && damping > 0.0 ==> (value > 0.0 ==> r > 0.0) && (value < 0.0 ==> r < 0.0)
  {
    if IsActive(value) then
      assert damping > 0.0 ==> (value > 0.0 ==> value * damping > 0.0) && (value < 0.0 ==> value * damping < 0.0) by {
        if damping > 0.0 && value > 0.0 {
          MulPos(value, damping);
        } else if damping > 0.0 && value < 0.0 {
          MulPos(-value, damping);
          assert value * damping == -((-value) * damping);
        }
      }
      value * damping
    else 0.0
  }

  /** The value after n updates with no new force. */
  function Coast(value: real, damping: real, n: nat): real
    decreases n
  {
    if n == 0 then value else Coast(Step(value, damping), damping, n - 1)
  }

  class DampedAction {
    var value: real
    var damping: real

    constructor ()
      ensures value == 0.0 && damping == DefaultDamping
    {
      value := 0.0;
      damping := DefaultDamping;
    }

    /** Accumulates the force; no clamping at this layer. */
    method AddForce(force: real)
      modifies this`value
      ensures value == old(value) + force
    {
      value := value + force;
    }

    /**
     * Reports whether the channel is active and advances it one frame. `force` is the value
     * before the decay: when active, the owner applies its action with it.
     */
    method Update() returns (active: bool, force: real)
      modifies this`value
      ensures active <==> IsActive(old(value))
      ensures force == old(value)
      ensures value == Step(old(value), damping)
    {
      force := value;
      active := value * value > Threshold;
      if active {
        value := value * damping;
      } else {
        Stop();
      }
    }

    method Stop()
      modifies this`value
      ensures value == 0.0
    {
      value := 0.0;
    }
  }

  /** With damping in [0, 1), an update never grows the value, and strictly shrinks a non-zero one. */
  lemma StepShrinks(value: real, damping: real)
    requires 0.0 <= damping < 1.0
    ensures Abs(Step(value, damping)) <= Abs(value)
    ensures value != 0.0 ==> Abs(Step(value, damping)) < Abs(value)
  {
    var s := Step(value, damping);
    if IsActive(value) {
      var a := Abs(value);
      assert s == value * damping;
      AbsScale(value, damping);
      ScaleShrinks(a, damping);
      assert Abs(s) == a * damping;
    } else {
      assert s == 0.0;
    }
  }

  /** Scaling a positive magnitude by a factor in [0, 1) shrinks it. */
  lemma ScaleShrinks(a: real, d: real)
    requires a > 0.0 && 0.0 <= d < 1.0
    ensures a * d < a
  {
    MulPos(a, 1.0 - d);
    assert a * (1.0 - d) == a - a * d;
  }

  /** |Step(v)| <= |v| d, whether or not the channel was active. */
  lemma StepBound(value: real, damping: real)
    requires 0.0 <= damping
    ensures Abs(Step(value, damping)) <= Abs(value) * damping
  {
    if IsActive(value) {
      AbsScale(value, damping);
    } else {
      MulNonNeg(Abs(value), damping);
    }
  }

  lemma AbsScale(value: real, damping: real)
    requires damping >= 0.0
    ensures Abs(value * damping) == Abs(value) * damping
  {
    if value < 0.0 {
      assert value * damping == -((-value) * damping);
      MulNonNeg(-value, damping);
    } else {
      MulNonNeg(value, damping);
    }
  }

  lemma MulLe(a: real, b: real, c: real)
    requires a <= b && c >= 0.0
    ensures a * c <= b * c
  {
    MulNonNeg(b - a, c);
    assert (b - a) * c == b * c - a * c;
  }

  lemma MulPos(a: real, b: real)
    requires a > 0.0 && b > 0.0
    ensures a * b > 0.0
  {}

  /** 1 + n x, built one addition at a time. */
  function Reach(n: nat, x: real): real
    decreases n
  {
    if n == 0 then 1.0 else Reach(n - 1, x) + x
  }

  lemma {:induction false} ReachIsAffine(n: nat, x: real)
    ensures Reach(n, x) == 1.0 + (n as real) * x
    decreases n
  {
    if n > 0 {
      ReachIsAffine(n - 1, x);
      assert (n as real) * x == ((n - 1) as real) * x + x;
    }
  }

  lemma {:induction false} ReachAtLeastOne(n: nat, x: real)
    requires x >= 0.0
    ensures Reach(n, x) >= 1.0
    decreases n
  {
    if n > 0 {
      ReachAtLeastOne(n - 1, x);
    }
  }

  /**
   * After n quiet updates the magnitude, scaled by 1 + n (1 - d), is still at most the
   * starting magnitude: a Bernoulli-style bound on the geometric decay.
   */
  lemma {:induction false} CoastDecay(value: real, damping: real, n: nat)
    requires 0.0 <= damping <= 1.0
    ensures Abs(Coast(value, damping, n)) * Reach(n, 1.0 - damping) <= Abs(value)
    decreases n
  {
    if n > 0 {
      var s := Step(value, damping);
      CoastDecay(s, damping, n - 1);
      StepBound(value, damping);
      ReachAtLeastOne(n - 1, 1.0 - damping);
      DecayStep(Abs(Coast(s, damping, n - 1)), Abs(s), Abs(value), 1.0 - damping,
                Reach(n - 1, 1.0 - damping), Reach(n, 1.0 - damping));
    }
  }

  /** The inductive step of CoastDecay on plain reals: c r0 <= s <= a (1 - x) and r1 = r0 + x. */
  lemma DecayStep(c: real, s: real, a: real, x: real, r0: real, r1: real)
    requires 0.0 <= x <= 1.0 && c >= 0.0 && a >= 0.0 && r0 >= 1.0
    requires c * r0 <= s && s <= a * (1.0 - x)
    requires r1 == r0 + x
    ensures c * r1 <= a
  {
    assert c * r1 == c * r0 + c * x;
    assert c * x <= a * x by {
      MulLe(1.0 - x, 1.0, a);
      MulLe(c, a, x);
    }
  }

  /** The number of quiet updates after which a channel has certainly come to rest. */
  function SettleSteps(value: real, damping: real): (n: nat)
    requires 0.0 <= damping < 1.0
    ensures n >= 1
  {
    var k := (1000.0 * Abs(value)) / (1.0 - damping);
    assert k >= 0.0 by { DivNonNeg(1000.0 * Abs(value), 1.0 - damping); }
    k.Floor as nat + 1
  }

  lemma DivNonNeg(a: real, b: real)
    requires a >= 0.0 && b > 0.0
    ensures a / b >= 0.0
  {}

  /**
   * With damping in [0, 1), a channel left alone reaches exactly zero within SettleSteps
   * updates: the snap threshold bounds the number of frames a flick keeps moving the camera.
   */
  lemma Settles(value: real, damping: real)
    requires 0.0 <= damping < 1.0
    ensures Coast(value, damping, SettleSteps(value, damping)) == 0.0
  {
    var n: nat := SettleSteps(value, damping) - 1;
    var c := Coast(value, damping, n);
    assert 1000.0 * Abs(c) <= 1.0 by {
      ReachCovers(Abs(value), 1.0 - damping, n);
      CoastDecay(value, damping, n);
      MarginChain(Abs(c), Abs(value), Reach(n, 1.0 - damping));
    }
    assert c * c <= Threshold by {
      SquareSmall(c);
    }
    CoastSplit(value, damping, n);
  }

  /** 1 + n x reaches 1000 a once n is the floor of 1000 a / x. */
  lemma ReachCovers(a: real, x: real, n: nat)
    requires a >= 0.0 && 0.0 < x <= 1.0
    requires n == ((1000.0 * a) / x).Floor
    ensures Reach(n, x) >= 1000.0 * a && Reach(n, x) > 0.0
  {
    var k := (1000.0 * a) / x;
    assert (n as real) + 1.0 > k;
    assert k * x == 1000.0 * a;
    MulLe(k, (n as real) + 1.0, x);
    assert ((n as real) + 1.0) * x == (n as real) * x + x;
    ReachIsAffine(n, x);
  }

  /** c r <= a and r >= 1000 a with r > 0 give 1000 c <= 1. */
  lemma MarginChain(c: real, a: real, r: real)
    requires c >= 0.0 && r > 0.0
    requires c * r <= a && 1000.0 * a <= r
    ensures 1000.0 * c <= 1.0
  {
    if 1000.0 * c > 1.0 {
      MulLe(1.0, 1000.0 * c, r);
      assert false;
    }
  }

  lemma SquareSmall(c: real)
    requires 1000.0 * Abs(c) <= 1.0
    ensures c * c <= Threshold
  {
    var b := Abs(c);
    assert c * c == b * b;
    MulLe(b, 0.001, b);
    MulLe(b, 0.001, 0.001);
  }

  lemma {:induction false} CoastSplit(value: real, damping: real, n: nat)
    ensures Coast(value, damping, n + 1) == Step(Coast(value, damping, n), damping)
    decreases n
  {
    if n > 0 {
      CoastSplit(Step(value, damping), damping, n - 1);
    }
  }

  /** A channel at rest stays at rest. */
  lemma {:induction false} RestIsStable(damping: real, n: nat)
    ensures Coast(0.0, damping, n) == 0.0
  {
    if n > 0 {
      RestIsStable(damping, n - 1);
    }
  }
}
