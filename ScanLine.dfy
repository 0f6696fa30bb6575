/**
 * The scan-line animator: a one-shot calibration of the sweep bounds and of the step per
 * draw (`SPEEN_DISTANCE`), and the per-draw advance that wraps back to the frame top.
 */
module ScanLine {
  import opened Geometry

  /** The animator's fields: `isFirst`, `slideTop`, `slideBottom` and `SPEEN_DISTANCE`. */
  datatype Anim = Anim(isFirst: bool, slideTop: int, slideBottom: int, speed: int)

  /** The fields before the first draw: Java's zero defaults and `SPEEN_DISTANCE = 6`. */
  const Initial := Anim(false, 0, 0, 6)

  /** The divisor of the step computation, `scanTime / 16 + 2`, in Java arithmetic. */
  function ScanDivisor(scanTime: int): (d: int)
    ensures scanTime >= 0 ==> d >= 2
  {
    JavaDiv(scanTime, 16) + 2
  }

  /**
   * The step's divisor is zero exactly for scan times -47 to -32: Java truncates
   * `scanTime / 16` to -2 there. (With floor division it would be -32 to -17.)
   */
  lemma ScanDivisorZero(scanTime: int)
    ensures ScanDivisor(scanTime) == 0 <==> -47 <= scanTime <= -32
  {
    if scanTime < 0 {
      assert Abs(scanTime) / 16 == 2 <==> 32 <= -scanTime <= 47;
    }
  }

  /**
   * The first draw that sees a frame sets the sweep to run from `CORNER_WIDTH` below the
   * frame top to `CORNER_WIDTH` above its bottom, and the step to the span divided by
   * `scanTime / 16 + 2`; once calibrated the fields are returned unchanged.
   */
  function Calibrate(a: Anim, f: Rect, cornerWidth: int, scanTime: int): (r: Anim)
    requires a.isFirst || ScanDivisor(scanTime) != 0
    ensures r.isFirst
    ensures a.isFirst ==> r == a
  {
    if a.isFirst then a
    else
      var slideTop := f.top + cornerWidth;
      var slideBottom := f.bottom - cornerWidth;
      Anim(true, slideTop, slideBottom, JavaDiv(slideBottom - slideTop, ScanDivisor(scanTime)))
  }

  /** Calibration happens once: a later frame, corner width or scan time changes nothing. */
  lemma CalibrationIsOneShot(a: Anim, f1: Rect, cw1: int, t1: int, f2: Rect, cw2: int, t2: int)
    requires a.isFirst || ScanDivisor(t1) != 0
    ensures Calibrate(Calibrate(a, f1, cw1, t1), f2, cw2, t2) == Calibrate(a, f1, cw1, t1)
  {
  }

  /** Top 100, bottom 400, corner width 2 and a 1600 ms scan give the sweep 102..398 and step 296 / 102 = 2. */
  lemma CalibrationExample()
    ensures Calibrate(Initial, Rect(0, 100, 0, 400), 2, 1600) == Anim(true, 102, 398, 2)
  {
  }

  /**
   * With a non-negative scan time the divisor is at least 2, so the step of a
   * non-negative span lies between 0 and half the span; it is 0, and the line never
   * moves, when the span is shorter than the divisor. The step is never clamped.
   */
  lemma StepBounds(span: int, scanTime: int)
    requires span >= 0 && scanTime >= 0
    ensures ScanDivisor(scanTime) >= 2
    ensures 0 <= JavaDiv(span, ScanDivisor(scanTime)) <= span / 2
    ensures span < ScanDivisor(scanTime) ==> JavaDiv(span, ScanDivisor(scanTime)) == 0
  {
    var d := ScanDivisor(scanTime);
    JavaDivOfNonNegative(span, d);
    DivByLargerDivisor(span, d, 2);
  }

  /** Dividing by a larger positive divisor never gives a larger quotient. */
  lemma DivByLargerDivisor(n: nat, d: int, k: int)
    requires 1 <= k <= d
    ensures n / d <= n / k
  {
    var q := n / d;
    var r := n / k;
    assert q * d <= n;
    MulLeftMonotone(q, k, d);
    assert n < (r + 1) * k;
    MulMonotone(q, r + 1, k);
  }

  lemma MulLeftMonotone(q: nat, k: int, d: int)
    requires k <= d
    ensures q * k <= q * d
  {
    assert q * d - q * k == q * (d - k);
  }

  lemma MulMonotone(a: int, b: int, k: int)
    requires k > 0 && a * k < b * k
    ensures a < b
  {
  }

  /**
   * One draw's advance: move down by the step and, once the line reaches the bottom of
   * the sweep, restart at `CORNER_WIDTH` below the CURRENT frame's top.
   */
  function Advance(a: Anim, frameTop: int, cornerWidth: int): (r: Anim)
    ensures r.isFirst == a.isFirst && r.slideBottom == a.slideBottom && r.speed == a.speed
    ensures r.slideTop == a.slideTop + a.speed || r.slideTop == frameTop + cornerWidth
    ensures r.slideTop < a.slideBottom || r.slideTop == frameTop + cornerWidth
  {
    var next := a.slideTop + a.speed;
    a.(slideTop := if next >= a.slideBottom then frameTop + cornerWidth else next)
  }

  /** The line lies in the sweep [top + CORNER_WIDTH, slideBottom) of frame `f`. */
  predicate InSweep(a: Anim, f: Rect, cornerWidth: int)
  {
    f.top + cornerWidth <= a.slideTop < a.slideBottom
  }

  /** With an unchanged frame and a non-negative step the advance keeps the line in the sweep. */
  lemma AdvanceStaysInSweep(a: Anim, f: Rect, cornerWidth: int)
    requires InSweep(a, f, cornerWidth) && a.speed >= 0
    ensures InSweep(Advance(a, f.top, cornerWidth), f, cornerWidth)
    ensures Advance(a, f.top, cornerWidth).slideTop >= a.slideTop
            || Advance(a, f.top, cornerWidth).slideTop == f.top + cornerWidth
  {
  }

  /**
   * The wrap target is the current frame's top, not the calibrated one: after the frame
   * moves down, the wrapped line can land below the calibrated bottom.
   */
  lemma WrapFollowsCurrentFrame()
    ensures var a := Anim(true, 390, 398, 10);
            Advance(a, 500, 2).slideTop == 502 && Advance(a, 500, 2).slideTop >= a.slideBottom
  {
  }
}
