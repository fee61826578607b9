/**
 * The pure parts of PeasyCam's input mapper: rotation-constraint bit sets, the shift latch and
 * the constraint priority, viewport containment and the viewport-relative normalised coordinates
 * that shape rotation forces.
 */
module Input {
  import opened Utils

  /** A Java int used as a bit set of rotation axes. */
  type Mask = bv32

  const YAW: Mask := 0x01
  const PITCH: Mask := 0x02
  const ROLL: Mask := 0x04
  const ALL: Mask := 0x07

  /** Java's `m > 0` on a 32-bit two's-complement int. */
  predicate Positive(m: Mask) {
    m != 0 && m & 0x8000_0000 == 0
  }

  /** `(m & bit) > 0`. */
  predicate Has(m: Mask, bit: Mask) {
    Positive(m & bit)
  }

  /**
   * The drag constraint by increasing priority: ALL, overridden by a positive fixed constraint,
   * overridden by a positive shift-latched constraint. The result is never empty.
   */
  function EffectiveConstraint(shift: Mask, fixed: Mask): (r: Mask)
    ensures Positive(r)
    ensures Positive(shift) ==> r == shift
    ensures !Positive(shift) && Positive(fixed) ==> r == fixed
    ensures !Positive(shift) && !Positive(fixed) ==> r == ALL
  {
    var r0 := ALL;
    var r1 := if Positive(fixed) then fixed else r0;
    if Positive(shift) then shift else r1
  }

  /**
   * The shift latch on a drag event: with Shift held, no axis latched yet and the two inverted
   * deltas more than one pixel apart, latch yaw for a mostly horizontal motion and pitch otherwise.
   * A latched axis is never replaced, and only ever yaw or pitch is latched.
   */
  function LatchShift(shift: Mask, shiftDown: bool, dmx: real, dmy: real): (r: Mask)
    ensures shift != 0 ==> r == shift
    ensures r == shift || (shift == 0 && shiftDown && (r == YAW || r == PITCH))
    ensures shift == 0 && shiftDown && Abs(dmx - dmy) > 1.0 ==> r == (if Abs(dmx) > Abs(dmy) then YAW else PITCH)
    ensures !(shift == 0 && shiftDown && Abs(dmx - dmy) > 1.0) ==> r == shift
  {
    if shiftDown && shift == 0 && Abs(dmx - dmy) > 1.0 then
      (if Abs(dmx) > Abs(dmy) then YAW else PITCH)
    else
      shift
  }

  /** `setRotationConstraint(yaw, pitch, roll)`: exactly the selected bits, and no others. */
  function FixedConstraint(yaw: bool, pitch: bool, roll: bool): (r: Mask)
    ensures Has(r, YAW) <==> yaw
    ensures Has(r, PITCH) <==> pitch
    ensures Has(r, ROLL) <==> roll
    ensures r & !ALL == 0
  {
    var f0: Mask := 0;
    var f1 := f0 | (if yaw then YAW else 0);
    var f2 := f1 | (if pitch then PITCH else 0);
    f2 | (if roll then ROLL else 0)
  }

  /** Clearing every fixed axis does not freeze the camera: the drag falls back to ALL. */
  lemma NoFixedAxisMeansAll()
    ensures EffectiveConstraint(0, FixedConstraint(false, false, false)) == ALL
  {
  }

  /** The pointer viewport [x, y, w, h]. */
  datatype Viewport = Viewport(x: real, y: real, w: real, h: real)

  /**
   * `insideViewport`: strictly inside, open on all four edges. Only a viewport with positive width
   * and height contains a point.
   */
  function Inside(vp: Viewport, px: real, py: real): (r: bool)
    ensures r ==> vp.w > 0.0 && vp.h > 0.0
  {
    px > vp.x && px < vp.x + vp.w && py > vp.y && py < vp.y + vp.h
  }

  /** A viewport without positive width and height contains no point. */
  lemma EmptyViewportContainsNothing(vp: Viewport, px: real, py: real)
    requires vp.w <= 0.0 || vp.h <= 0.0
    ensures !Inside(vp, px, py)
  {
  }

  /**
   * `min(max(n / w, 0), 1)` in IEEE arithmetic: dividing a non-zero n by zero gives an infinity,
   * which the clamp turns into 1 or 0. The NaN of 0 / 0 is modelled as 0.
   */
  function UnitRatio(n: real, w: real): (r: real)
    ensures 0.0 <= r <= 1.0
    ensures w != 0.0 && 0.0 <= n / w <= 1.0 ==> r == n / w
  {
    if w != 0.0 then Min(Max(n / w, 0.0), 1.0)
    else if n > 0.0 then 1.0
    else 0.0
  }

  /** A pointer coordinate normalised to [-1, 1] across the viewport, clamped to the box. */
  function Ndc(p: real, origin: real, extent: real): (r: real)
    ensures -1.0 <= r <= 1.0
  {
    UnitRatio(p - origin, extent) * 2.0 - 1.0
  }

  /** A point strictly inside the viewport maps strictly inside (-1, 1) on both axes. */
  lemma InsideNdcInterior(vp: Viewport, px: real, py: real)
    requires Inside(vp, px, py)
    ensures -1.0 < Ndc(px, vp.x, vp.w) < 1.0
    ensures -1.0 < Ndc(py, vp.y, vp.h) < 1.0
  {
    RatioInterior(px - vp.x, vp.w);
    RatioInterior(py - vp.y, vp.h);
  }

  /** The yaw force of a rotate drag: full at the viewport's vertical center, none at its top and bottom edges. */
  function YawForce(dmx: real, myNdc: real): (r: real)
    ensures myNdc == 0.0 ==> r == dmx
    ensures myNdc == 1.0 || myNdc == -1.0 ==> r == 0.0
    ensures dmx == 0.0 ==> r == 0.0
  {
    dmx * (1.0 - myNdc * myNdc)
  }

  /** The pitch force of a rotate drag: full at the horizontal center, none at the left and right edges. */
  function PitchForce(dmy: real, mxNdc: real): (r: real)
    ensures mxNdc == 0.0 ==> r == -dmy
    ensures mxNdc == 1.0 || mxNdc == -1.0 ==> r == 0.0
    ensures dmy == 0.0 ==> r == 0.0
  {
    -dmy * (1.0 - mxNdc * mxNdc)
  }

  /**
   * The two roll contributions of a rotate drag, from the horizontal and the vertical delta: none
   * across the viewport's middle, full at its edges, with opposite signs at opposite edges.
   */
  function RollForceX(dmx: real, myNdc: real): (r: real)
    ensures myNdc == 0.0 ==> r == 0.0
    ensures myNdc == 1.0 ==> r == -dmx
    ensures myNdc == -1.0 ==> r == dmx
  {
    -dmx * myNdc
  }

  function RollForceY(dmy: real, mxNdc: real): (r: real)
    ensures mxNdc == 0.0 ==> r == 0.0
    ensures mxNdc == 1.0 ==> r == dmy
    ensures mxNdc == -1.0 ==> r == -dmy
  {
    dmy * mxNdc
  }

  /**
   * Inside the normalised range the parabolic falloff only weakens a delta: the yaw and pitch
   * forces keep the delta's direction and never exceed it, and each roll part is at most the delta.
   */
  lemma ForcesBounded(dmx: real, dmy: real, mxNdc: real, myNdc: real)
    requires -1.0 <= mxNdc <= 1.0 && -1.0 <= myNdc <= 1.0
    ensures Abs(YawForce(dmx, myNdc)) <= Abs(dmx) && YawForce(dmx, myNdc) * dmx >= 0.0
    ensures Abs(PitchForce(dmy, mxNdc)) <= Abs(dmy) && PitchForce(dmy, mxNdc) * dmy <= 0.0
    ensures Abs(RollForceX(dmx, myNdc)) <= Abs(dmx) && Abs(RollForceY(dmy, mxNdc)) <= Abs(dmy)
  {
    FalloffBounded(dmx, myNdc);
    FalloffBounded(dmy, mxNdc);
    assert PitchForce(dmy, mxNdc) == -(dmy * (1.0 - mxNdc * mxNdc));
    PartBounded(dmx, myNdc);
    assert RollForceX(dmx, myNdc) == -(dmx * myNdc);
    PartBounded(dmy, mxNdc);
  }

  /** d (1 - n^2) lies between 0 and d for n in [-1, 1]. */
  lemma FalloffBounded(d: real, n: real)
    requires -1.0 <= n <= 1.0
    ensures Abs(d * (1.0 - n * n)) <= Abs(d) && d * (1.0 - n * n) * d >= 0.0
  {
    var f := 1.0 - n * n;
    SquareAtMostOne(n);
    PartBounded(d, f);
    SquareNonNeg(d);
    MulNonNeg(d * d, f);
    assert d * f * d == d * d * f;
  }

  lemma SquareAtMostOne(n: real)
    requires -1.0 <= n <= 1.0
    ensures 0.0 <= n * n <= 1.0
  {
    SquareNonNeg(n);
    var a := Abs(n);
    assert n * n == a * a;
    MulGe(1.0, a, a);
  }

  /** |d n| <= |d| for n in [-1, 1]. */
  lemma PartBounded(d: real, n: real)
    requires -1.0 <= n <= 1.0
    ensures Abs(d * n) <= Abs(d)
  {
    var a, b := Abs(d), Abs(n);
    AbsMul(d, n);
    MulGe(1.0, b, a);
    assert b * a == a * b;
  }

  lemma AbsMul(d: real, n: real)
    ensures Abs(d * n) == Abs(d) * Abs(n)
  {
    if d < 0.0 && n < 0.0 {
      assert d * n == (-d) * (-n);
      MulNonNeg(-d, -n);
    } else if d < 0.0 {
      assert d * n == -((-d) * n);
      MulNonNeg(-d, n);
    } else if n < 0.0 {
      assert d * n == -(d * (-n));
      MulNonNeg(d, -n);
    } else {
      MulNonNeg(d, n);
    }
  }

  lemma RatioInterior(n: real, w: real)
    requires 0.0 < n < w
    ensures 0.0 < UnitRatio(n, w) < 1.0
  {
    var q := n / w;
    assert q * w == n;
    if q >= 1.0 {
      MulGe(q, 1.0, w);
      assert false;
    }
  }

  lemma MulGe(a: real, b: real, c: real)
    requires a >= b && c >= 0.0
    ensures a * c >= b * c
  {
    MulNonNeg(a - b, c);
    assert (a - b) * c == a * c - b * c;
  }
}
