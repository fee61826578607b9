/** Easing and blending helpers of PeasyCam.Utils, over exact reals. */
module Utils {

  /** An optional value: a Java reference that may be null. */
  datatype Option<T> = None | Some(value: T)

  /** Quintic easing x^3 (x (6x - 15) + 10): fixes 0, 1/2 and 1 and stays in [0, 1] on [0, 1]. */
  function Smootherstep(x: real): (r: real)
    ensures x == 0.0 ==> r == 0.0
    ensures x == 1.0 ==> r == 1.0
    ensures x == 0.5 ==> r == 0.5
    ensures 0.0 <= x <= 1.0 ==> 0.0 <= r <= 1.0
  {
    var r := x * x * x * (x * (x * 6.0 - 15.0) + 10.0);
    assert 0.0 <= x <= 1.0 ==> 0.0 <= r <= 1.0 by {
      if 0.0 <= x <= 1.0 {
        SmootherstepBounds(x);
      }
    }
    r
  }

  /** The two factorisations that bound the quintic on [0, 1]. */
  lemma SmootherstepBounds(x: real)
    requires 0.0 <= x <= 1.0
    ensures 0.0 <= x * x * x * (x * (x * 6.0 - 15.0) + 10.0) <= 1.0
  {
    var p := x * (x * 6.0 - 15.0) + 10.0;
    var r := x * x * x * p;
    var u := x - 1.25;
    SquareNonNeg(u);
    assert p == 6.0 * (u * u) + 0.625;
    assert p > 0.0;
    var x3 := x * x * x;
    MulNonNeg(x, x);
    MulNonNeg(x * x, x);
    assert r == x3 * p;
    MulNonNeg(x3, p);
    var y := 1.0 - x;
    var q := 6.0 * x * x + 3.0 * x + 1.0;
    var y3 := y * y * y;
    MulNonNeg(y, y);
    MulNonNeg(y * y, y);
    assert q >= 1.0;
    assert 1.0 - r == y3 * q;
    MulNonNeg(y3, q);
  }

  lemma SquareNonNeg(a: real)
    ensures a * a >= 0.0
  {
    if a < 0.0 {
      MulNonNeg(-a, -a);
    } else {
      MulNonNeg(a, a);
    }
  }

  lemma MulNonNeg(a: real, b: real)
    requires a >= 0.0 && b >= 0.0
    ensures a * b >= 0.0
  {}

  /** The easing is point-symmetric about (1/2, 1/2): easing out mirrors easing in. */
  lemma SmootherstepSymmetric(x: real)
    ensures Smootherstep(1.0 - x) == 1.0 - Smootherstep(x)
  {
    var y := 1.0 - x;
    assert y * y * y * (y * (y * 6.0 - 15.0) + 10.0)
        == 1.0 - x * x * x * (x * (x * 6.0 - 15.0) + 10.0);
  }

  /** Cubic easing x^2 (3 - 2x): fixes 0, 1/2 and 1. */
  function Smoothstep(x: real): (r: real)
    ensures x == 0.0 ==> r == 0.0
    ensures x == 1.0 ==> r == 1.0
    ensures x == 0.5 ==> r == 0.5
  {
    x * x * (3.0 - 2.0 * x)
  }

  /** Linear blend a (1 - t) + b t: the end points at t = 0 and t = 1, and between them on [0, 1]. */
  function Mix(a: real, b: real, t: real): (r: real)
    ensures t == 0.0 ==> r == a
    ensures t == 1.0 ==> r == b
    ensures 0.0 <= t <= 1.0 ==> Min(a, b) <= r <= Max(a, b)
  {
    var r := a * (1.0 - t) + b * t;
    assert r == a + (b - a) * t;
    assert 0.0 <= t <= 1.0 ==> Min(a, b) <= r <= Max(a, b) by {
      if 0.0 <= t <= 1.0 {
        MixBetween(a, b, t);
      }
    }
    r
  }

  lemma MixBetween(a: real, b: real, t: real)
    requires 0.0 <= t <= 1.0
    ensures Min(a, b) <= a + (b - a) * t <= Max(a, b)
  {
    if a <= b {
      MulNonNeg(b - a, t);
      MulNonNeg(b - a, 1.0 - t);
      assert (b - a) * t + (b - a) * (1.0 - t) == b - a;
    } else {
      MulNonNeg(a - b, t);
      MulNonNeg(a - b, 1.0 - t);
      assert (a - b) * t + (a - b) * (1.0 - t) == a - b;
    }
  }

  function Min(a: real, b: real): real { if a <= b then a else b }

  function Max(a: real, b: real): real { if a >= b then a else b }

  /** Java's Math.abs on doubles, without the NaN and signed-zero cases. */
  function Abs(a: real): real { if a < 0.0 then -a else a }
}
