/**
 * One `onDraw` of the viewfinder overlay as pure functions of the view's fields: the
 * fields afterwards (`Step`), the commands sent to the canvas (`Output`) and the redraw
 * request posted (`RedrawAfter`), with the properties that hold across draws.
 */
module Overlay {
  import opened Wrappers
  import opened Colors
  import opened Geometry
  import opened Canvas
  import opened ScanLine
  import opened ResultPoints

  /** `ANIMATION_DELAY`: milliseconds before the next scanning draw. */
  const AnimationDelay := 10
  /** Radius of a current-generation point circle. */
  const CurrentRadius := 6
  /** Radius of a previous-generation point circle. */
  const PreviousRadius := 3
  /** Alpha given to both prompt paints. */
  const TextAlpha: bv32 := 221
  /** The title is centred 180 pixels above the frame top. */
  const TitleRise := 180
  /** The prompt block starts 140 pixels above the frame top. */
  const PromptRise := 140
  /** The prompt block is inset 57 pixels from both sides of the canvas. */
  const PromptMargin := 57

  /**
   * The fields of the view that drawing reads or writes: the scan-line animator,
   * `CORNER_WIDTH`, `scanTime`, `drawLine`, `resultBitmap` (the overlay's mode) and the two
   * point generations.
   */
  datatype View<P, B> = View(anim: Anim, cornerWidth: int, scanTime: int, drawLine: bool,
                             resultBitmap: Option<B>, points: Generations<P>)

  /** What the view fixes at construction: `ScreenRate` and the resource colours. */
  datatype Look = Look(screenRate: int, maskColor: Color, resultColor: Color,
                       resultPointColor: Color, firstTextColor: Color)

  /** Java throws on a zero step divisor; a draw that would calibrate needs a non-zero one. */
  predicate CanDraw<P, B>(v: View<P, B>, frame: Option<Rect>)
  {
    frame.None? || v.anim.isFirst || ScanDivisor(v.scanTime) != 0
  }

  /** The decoder's `addPossibleResultPoint` calls between two draws. */
  function AddPoints<P, B>(v: View<P, B>, added: set<P>): (r: View<P, B>)
    ensures r.points.possible == v.points.possible + added && r.points.last == v.points.last
    ensures r.anim == v.anim && r.resultBitmap == v.resultBitmap
  {
    v.(points := v.points.(possible := v.points.possible + added))
  }

  /**
   * The fields after one draw. No frame: nothing changes. Otherwise the animator is
   * calibrated (once); with a result bitmap that is all; while scanning the line advances
   * when `drawLine` is set and the point generations rotate.
   */
  function Step<P, B>(v: View<P, B>, frame: Option<Rect>): (r: View<P, B>)
    requires CanDraw(v, frame)
    ensures frame.Some? ==> r.anim.isFirst
    ensures r.cornerWidth == v.cornerWidth && r.scanTime == v.scanTime
    ensures r.drawLine == v.drawLine && r.resultBitmap == v.resultBitmap
  {
    match frame
    case None => v
    case Some(f) =>
      var a := Calibrate(v.anim, f, v.cornerWidth, v.scanTime);
      if v.resultBitmap.Some? then v.(anim := a)
      else v.(anim := if v.drawLine then Advance(a, f.top, v.cornerWidth) else a,
              points := Rotate(v.points))
  }

  /** The paint colour of the mask: the result background in result mode, the mask colour while scanning. */
  function MaskColor<P, B>(v: View<P, B>, look: Look): Color
  {
    if v.resultBitmap.Some? then look.resultColor else look.maskColor
  }

  /**
   * What a scanning draw paints between the mask and the points: the eight white corner
   * strokes, the scan line at the advanced position when `drawLine` is set, and the two
   * prompts.
   */
  function Decorations<P, B>(v: View<P, B>, look: Look, f: Rect, width: int): (r: seq<DrawCmd<P, B>>)
    requires CanDraw(v, Some(f))
    ensures |r| == if v.drawLine then 11 else 10
    ensures forall c :: c in r ==> !c.DrawCircle?
  {
    Fills(CornerRects(f, v.cornerWidth, look.screenRate), White)
    + (if v.drawLine then [DrawScanLine(LineRect(f, Step(v, Some(f)).anim.slideTop), White)] else [])
    + [DrawTitle(JavaDiv(width, 2), f.top - TitleRise, SetAlpha(look.firstTextColor, TextAlpha)),
       DrawPrompt(PromptMargin, f.top - PromptRise, width - 2 * PromptMargin, SetAlpha(White, TextAlpha))]
  }

  /**
   * The commands of one draw. `current` and `previous` are the orders in which the two
   * point sets are visited. The paint is shared: every circle takes the point colour
   * whole, because `setColor` also replaces the alpha set just before it.
   */
  function Output<P, B>(v: View<P, B>, look: Look, frame: Option<Rect>, width: int, height: int,
                        current: seq<P>, previous: seq<P>): (r: seq<DrawCmd<P, B>>)
    requires CanDraw(v, frame)
    ensures frame.None? <==> r == []
    ensures v.resultBitmap.Some? ==> forall c :: c in r ==> !c.DrawCircle?
  {
    match frame
    case None => []
    case Some(f) =>
      var mask := Fills(MaskRects(f, width, height), MaskColor(v, look));
      match v.resultBitmap
      case Some(b) => mask + [DrawBitmap(b, f.left, f.top, SetAlpha(look.resultColor, Opaque))]
      case None =>
        mask + Decorations(v, look, f, width)
        + Circles(current, f, CurrentRadius, look.resultPointColor)
        + Circles(previous, f, PreviousRadius, look.resultPointColor)
  }

  /** A scanning draw asks to be drawn again after `ANIMATION_DELAY`, limited to the frame. */
  function RedrawAfter<P, B>(v: View<P, B>, frame: Option<Rect>): (r: Option<Redraw>)
    ensures r.Some? <==> frame.Some? && v.resultBitmap.None?
    ensures r.Some? ==> r.value.InvalidateDelayed? && r.value.delayMs == AnimationDelay
                        && r.value.region == frame.value
  {
    if frame.Some? && v.resultBitmap.None? then Some(InvalidateDelayed(AnimationDelay, frame.value))
    else None
  }

  /** `n` draws in a row against the same frame, with no point added in between. */
  function Draws<P, B>(v: View<P, B>, f: Rect, n: nat): View<P, B>
    requires CanDraw(v, Some(f))
    decreases n
  {
    if n == 0 then v else Draws(Step(v, Some(f)), f, n - 1)
  }

  /** Without a framing rectangle a draw paints nothing, changes nothing and posts nothing. */
  lemma AbsentFrameIsSkipped<P, B>(v: View<P, B>, look: Look, width: int, height: int,
                                   current: seq<P>, previous: seq<P>)
    ensures Step(v, None) == v
    ensures Output(v, look, None, width, height, current, previous) == []
    ensures RedrawAfter(v, None) == None
  {
  }

  /** Every draw with a frame starts with the four mask rectangles in the mode's colour. */
  lemma MaskComesFirst<P, B>(v: View<P, B>, look: Look, f: Rect, width: int, height: int,
                             current: seq<P>, previous: seq<P>)
    requires CanDraw(v, Some(f))
    ensures var out := Output(v, look, Some(f), width, height, current, previous);
            |out| >= 4 && out[..4] == Fills(MaskRects(f, width, height),
                                           if v.resultBitmap.Some? then look.resultColor else look.maskColor)
  {
  }

  /**
   * With a result bitmap a draw paints the mask and the opaque bitmap at the frame's
   * top-left corner and nothing else: no brackets, no line, no points, no redraw request;
   * the line and the point generations keep their values.
   */
  lemma ResultModeDraw<P, B>(v: View<P, B>, look: Look, f: Rect, width: int, height: int,
                             current: seq<P>, previous: seq<P>, b: B)
    requires CanDraw(v, Some(f)) && v.resultBitmap == Some(b)
    ensures var out := Output(v, look, Some(f), width, height, current, previous);
            && |out| == 5
            && out[4] == DrawBitmap(b, f.left, f.top, SetAlpha(look.resultColor, Opaque))
            && forall i :: 0 <= i < 4 ==> out[i].FillRect? && out[i].color == look.resultColor
    ensures RedrawAfter(v, Some(f)) == None
    ensures Step(v, Some(f)).points == v.points
    ensures v.anim.isFirst ==> Step(v, Some(f)) == v
  {
  }

  /**
   * While scanning, the mask is followed by the eight white corner strokes and, with
   * `drawLine`, by the scan line spanning the frame's width from the advanced `slideTop`
   * 5 pixels down; the draw ends with a 10 ms redraw request for the frame's area.
   */
  lemma ScanningDraw<P, B>(v: View<P, B>, look: Look, f: Rect, width: int, height: int,
                           current: seq<P>, previous: seq<P>)
    requires CanDraw(v, Some(f)) && v.resultBitmap.None?
    ensures var out := Output(v, look, Some(f), width, height, current, previous);
            && |out| >= 12
            && out[4..12] == Fills(CornerRects(f, v.cornerWidth, look.screenRate), White)
            && (v.drawLine ==>
                  var s := Step(v, Some(f)).anim.slideTop;
                  out[12] == DrawScanLine(Rect(f.left, s, f.right, s + MiddleLinePadding), White))
    ensures RedrawAfter(v, Some(f)) == Some(InvalidateDelayed(AnimationDelay, f))
    ensures !v.drawLine ==> Step(v, Some(f)).anim == Calibrate(v.anim, f, v.cornerWidth, v.scanTime)
  {
    var out := Output(v, look, Some(f), width, height, current, previous);
    var mask := Fills<P, B>(MaskRects(f, width, height), MaskColor(v, look));
    var corners := Fills<P, B>(CornerRects(f, v.cornerWidth, look.screenRate), White);
    var deco := Decorations(v, look, f, width);
    assert deco == corners + deco[8..];
    assert out == mask + corners + out[12..];
  }

  /**
   * The scan line a scanning draw paints spans the frame's width and, when the line was
   * in the sweep before the draw with a non-negative step, starts inside the sweep
   * [top + CORNER_WIDTH, slideBottom) and is `MIDDLE_LINE_PADDING` high.
   */
  lemma ScanLineInSweep<P, B>(v: View<P, B>, look: Look, f: Rect, width: int, height: int,
                              current: seq<P>, previous: seq<P>)
    requires v.anim.isFirst && v.anim.speed >= 0 && InSweep(v.anim, f, v.cornerWidth)
    requires v.resultBitmap.None? && v.drawLine
    ensures var out := Output(v, look, Some(f), width, height, current, previous);
            && |out| > 12 && out[12].DrawScanLine? && out[12].color == White
            && var r := out[12].dst;
               && r.left == f.left && r.right == f.right
               && f.top + v.cornerWidth <= r.top < v.anim.slideBottom
               && r.bottom - r.top == MiddleLinePadding
  {
    ScanningDraw(v, look, f, width, height, current, previous);
    AdvanceStaysInSweep(v.anim, f, v.cornerWidth);
  }

  /**
   * The points of a scanning draw: the current generation as radius-6 circles, the
   * previous generation (captured before the rotation) as radius-3 circles, and no other
   * circles. The rotation then moves the current generation into the previous one.
   */
  lemma {:induction false} PointsDrawn<P, B>(v: View<P, B>, look: Look, f: Rect, width: int, height: int,
                                             current: seq<P>, previous: seq<P>)
    requires CanDraw(v, Some(f)) && v.resultBitmap.None?
    requires Enumerates(current, v.points.possible)
    requires Enumerates(previous, LastOrEmpty(v.points.last))
    ensures var out := Output(v, look, Some(f), width, height, current, previous);
            && PointsAt(out, CurrentRadius) == v.points.possible
            && PointsAt(out, PreviousRadius) == LastOrEmpty(v.points.last)
            && forall r :: r != CurrentRadius && r != PreviousRadius ==> PointsAt(out, r) == {}
    ensures Step(v, Some(f)).points == Rotate(v.points)
  {
    var out := Output(v, look, Some(f), width, height, current, previous);
    var fixed := Fills<P, B>(MaskRects(f, width, height), MaskColor(v, look)) + Decorations(v, look, f, width);
    var cs := Circles<P, B>(current, f, CurrentRadius, look.resultPointColor);
    var ps := Circles<P, B>(previous, f, PreviousRadius, look.resultPointColor);
    assert out == fixed + cs + ps;
    EnumeratesElems(current, v.points.possible);
    EnumeratesElems(previous, LastOrEmpty(v.points.last));
    forall r ensures PointsAt(out, r) == (if r == CurrentRadius then Elems(current) else {})
                                        + (if r == PreviousRadius then Elems(previous) else {})
    {
      PrefixDrawsNoPoints(v, look, f, width, height, r);
      PointsAtConcat(fixed + cs, ps, r);
      PointsAtConcat(fixed, cs, r);
      PointsAtCircles<P, B>(current, f, CurrentRadius, look.resultPointColor, r);
      PointsAtCircles<P, B>(previous, f, PreviousRadius, look.resultPointColor, r);
    }
  }

  /** Nothing a scanning draw paints before the points is a circle. */
  lemma PrefixDrawsNoPoints<P, B>(v: View<P, B>, look: Look, f: Rect, width: int, height: int, r: int)
    requires CanDraw(v, Some(f))
    ensures PointsAt(Fills<P, B>(MaskRects(f, width, height), MaskColor(v, look)) + Decorations(v, look, f, width), r) == {}
  {
    var fixed := Fills<P, B>(MaskRects(f, width, height), MaskColor(v, look)) + Decorations(v, look, f, width);
    forall c | c in fixed ensures !c.DrawCircle? {
    }
    PointsAtNoCircles(fixed, r);
  }

  /** A draw, then the points the decoder reports before the next draw. */
  function DrawThenAdd<P, B>(v: View<P, B>, f: Rect, added: set<P>): View<P, B>
    requires CanDraw(v, Some(f))
  {
    AddPoints(Step(v, Some(f)), added)
  }

  /**
   * The life of a point while scanning: present in the current generation at draw 0, it
   * is drawn at full size in draw 0 and at half size in draw 1 (even when nothing was
   * added meanwhile); in draw 1 it is drawn at full size only if it was reported again,
   * and in draw 2 it is not drawn at all unless it was reported again. With nothing
   * reported between draws 0 and 1 the previous generation is null after draw 1.
   */
  lemma PointLifetime<P, B>(v0: View<P, B>, look: Look, f: Rect, width: int, height: int,
                            added1: set<P>, added2: set<P>, p: P,
                            c0: seq<P>, q0: seq<P>, c1: seq<P>, q1: seq<P>, c2: seq<P>, q2: seq<P>)
    requires CanDraw(v0, Some(f)) && v0.resultBitmap.None?
    requires p in v0.points.possible
    requires Enumerates(c0, v0.points.possible) && Enumerates(q0, LastOrEmpty(v0.points.last))
    requires var v1 := DrawThenAdd(v0, f, added1);
             Enumerates(c1, v1.points.possible) && Enumerates(q1, LastOrEmpty(v1.points.last))
    requires var v2 := DrawThenAdd(DrawThenAdd(v0, f, added1), f, added2);
             Enumerates(c2, v2.points.possible) && Enumerates(q2, LastOrEmpty(v2.points.last))
    ensures p in PointsAt(Output(v0, look, Some(f), width, height, c0, q0), CurrentRadius)
    ensures var v1 := DrawThenAdd(v0, f, added1);
            && p in PointsAt(Output(v1, look, Some(f), width, height, c1, q1), PreviousRadius)
            && (p in PointsAt(Output(v1, look, Some(f), width, height, c1, q1), CurrentRadius) <==> p in added1)
            && (added1 == {} ==> Step(v1, Some(f)).points.last.None?)
    ensures var v2 := DrawThenAdd(DrawThenAdd(v0, f, added1), f, added2);
            p !in added1 && p !in added2 ==>
              && p !in PointsAt(Output(v2, look, Some(f), width, height, c2, q2), CurrentRadius)
              && p !in PointsAt(Output(v2, look, Some(f), width, height, c2, q2), PreviousRadius)
  {
    var v1 := DrawThenAdd(v0, f, added1);
    var v2 := DrawThenAdd(v1, f, added2);
    PointsDrawn(v0, look, f, width, height, c0, q0);
    PointsDrawn(v1, look, f, width, height, c1, q1);
    PointsDrawn(v2, look, f, width, height, c2, q2);
  }

  /**
   * Against an unchanged frame and corner width and with a non-negative step, the line
   * stays in the sweep [top + CORNER_WIDTH, slideBottom) after every draw, whatever the
   * mode, and the sweep bottom and the step never change.
   */
  lemma {:induction false} LineStaysInSweep<P, B>(v: View<P, B>, f: Rect, n: nat)
    requires v.anim.isFirst && v.anim.speed >= 0
    requires InSweep(v.anim, f, v.cornerWidth)
    ensures InSweep(Draws(v, f, n).anim, f, v.cornerWidth)
    ensures Draws(v, f, n).anim.slideBottom == v.anim.slideBottom
    ensures Draws(v, f, n).anim.speed == v.anim.speed
    decreases n
  {
    if n > 0 {
      var w := Step(v, Some(f));
      if v.resultBitmap.None? && v.drawLine {
        AdvanceStaysInSweep(v.anim, f, v.cornerWidth);
      }
      LineStaysInSweep(w, f, n - 1);
    }
  }

  /**
   * From a view never drawn before, with a non-negative scan time and a frame taller
   * than twice the corner width, every draw from the first on leaves the line inside
   * the sweep.
   */
  lemma LineAlwaysInSweep<P, B>(v: View<P, B>, f: Rect, n: nat)
    requires !v.anim.isFirst && v.scanTime >= 0
    requires f.top + v.cornerWidth < f.bottom - v.cornerWidth
    requires n >= 1
    ensures InSweep(Draws(v, f, n).anim, f, v.cornerWidth)
  {
    var a := Calibrate(v.anim, f, v.cornerWidth, v.scanTime);
    StepBounds(a.slideBottom - a.slideTop, v.scanTime);
    var calibrated := v.(anim := a);
    assert InSweep(a, f, v.cornerWidth);
    assert Step(v, Some(f)) == Step(calibrated, Some(f));
    LineStaysInSweep(calibrated, f, n);
  }

  /** Magnitude bound on every input that keeps each sum a draw computes inside Java's int range. */
  const Bound := 0x1000_0000

  predicate Small(x: int) { -Bound <= x <= Bound }

  predicate Within(x: int, limit: int) { -limit <= x <= limit }

  predicate IsJavaInt(x: int) { -0x8000_0000 <= x < 0x8000_0000 }

  /** The inputs of a draw whose arithmetic the unbounded model reproduces exactly. */
  predicate NoOverflow<P, B>(v: View<P, B>, look: Look, f: Rect, width: int, height: int)
  {
    && Small(f.left) && Small(f.top) && Small(f.right) && Small(f.bottom)
    && Small(width) && Small(height) && Small(v.cornerWidth) && Small(look.screenRate)
    && Within(v.anim.slideTop, 2 * Bound) && Within(v.anim.slideBottom, 2 * Bound)
    && Within(v.anim.speed, 4 * Bound)
  }

  predicate RectFits(r: Rect)
  {
    IsJavaInt(r.left) && IsJavaInt(r.top) && IsJavaInt(r.right) && IsJavaInt(r.bottom)
  }

  /** Every coordinate a command carries is a Java int. */
  predicate CmdFits<P, B>(c: DrawCmd<P, B>)
  {
    match c
    case FillRect(r, _) => RectFits(r)
    case DrawBitmap(_, x, y, _) => IsJavaInt(x) && IsJavaInt(y)
    case DrawScanLine(r, _) => RectFits(r)
    case DrawTitle(x, y, _) => IsJavaInt(x) && IsJavaInt(y)
    case DrawPrompt(x, y, w, _) => IsJavaInt(x) && IsJavaInt(y) && IsJavaInt(w)
    case DrawCircle(_, x, y, _, _) => IsJavaInt(x) && IsJavaInt(y)
  }

  /** Under the magnitude bound, calibration and advance stay inside Java's int range. */
  lemma AnimFitsJavaInts<P, B>(v: View<P, B>, look: Look, f: Rect, width: int, height: int)
    requires CanDraw(v, Some(f)) && NoOverflow(v, look, f, width, height)
    ensures var a := Calibrate(v.anim, f, v.cornerWidth, v.scanTime);
            && IsJavaInt(a.slideTop + a.speed) && IsJavaInt(a.slideBottom - a.slideTop)
            && -6 * Bound <= a.slideTop + a.speed <= 6 * Bound
            && -2 * Bound <= a.slideTop <= 2 * Bound
    ensures var a := Step(v, Some(f)).anim;
            IsJavaInt(a.slideTop) && IsJavaInt(a.slideBottom) && IsJavaInt(a.speed)
    ensures NoOverflow(v.(anim := Calibrate(v.anim, f, v.cornerWidth, v.scanTime)), look, f, width, height)
  {
    var a := Calibrate(v.anim, f, v.cornerWidth, v.scanTime);
    if !v.anim.isFirst {
      var span := a.slideBottom - a.slideTop;
      var d := ScanDivisor(v.scanTime);
      DivByLargerDivisor(Abs(span), Abs(d), 1);
      assert Abs(span) / Abs(d) <= Abs(span);
    }
  }

  /** Under the magnitude bound the decorations' coordinates are Java ints. */
  lemma DecorationsFitJavaInts<P, B>(v: View<P, B>, look: Look, f: Rect, width: int, height: int)
    requires CanDraw(v, Some(f)) && NoOverflow(v, look, f, width, height)
    ensures forall c :: c in Decorations(v, look, f, width) ==> CmdFits(c)
  {
    AnimFitsJavaInts(v, look, f, width, height);
    CornersFitJavaInts<P, B>(f, v.cornerWidth, look.screenRate);
  }

  /** The corner strokes of a frame within the bound have Java int coordinates. */
  lemma CornersFitJavaInts<P, B>(f: Rect, cornerWidth: int, screenRate: int)
    requires Small(f.left) && Small(f.top) && Small(f.right) && Small(f.bottom)
    requires Small(cornerWidth) && Small(screenRate)
    ensures forall c :: c in Fills<P, B>(CornerRects(f, cornerWidth, screenRate), White) ==> CmdFits(c)
  {
    var h := JavaDiv(cornerWidth, 2);
    assert Abs(h) <= Abs(cornerWidth);
    assert Small(h);
    var r := CornerRects(f, cornerWidth, screenRate);
    assert RectFits(r[0]) && RectFits(r[1]) && RectFits(r[2]) && RectFits(r[3]);
    assert RectFits(r[4]) && RectFits(r[5]) && RectFits(r[6]) && RectFits(r[7]);
    FillsFitJavaInts<P, B>(r, White);
  }

  /** Filling rectangles with Java int coordinates emits commands with Java int coordinates. */
  lemma FillsFitJavaInts<P, B>(rs: seq<Rect>, color: Color)
    requires forall i :: 0 <= i < |rs| ==> RectFits(rs[i])
    ensures forall c :: c in Fills<P, B>(rs, color) ==> CmdFits(c)
  {
    var cmds := Fills<P, B>(rs, color);
    forall c | c in cmds
      ensures CmdFits(c)
    {
      var i :| 0 <= i < |cmds| && cmds[i] == c;
    }
  }

  /**
   * Under the magnitude bound no sum of a draw wraps around: the line position before
   * and after the wrap, the sweep, the step and every emitted coordinate are Java ints,
   * so the model's unbounded arithmetic is Java's.
   */
  lemma DrawFitsJavaInts<P, B>(v: View<P, B>, look: Look, f: Rect, width: int, height: int,
                               current: seq<P>, previous: seq<P>)
    requires CanDraw(v, Some(f)) && NoOverflow(v, look, f, width, height)
    ensures var a := Calibrate(v.anim, f, v.cornerWidth, v.scanTime);
            IsJavaInt(a.slideTop + a.speed) && IsJavaInt(a.slideBottom - a.slideTop)
    ensures var a := Step(v, Some(f)).anim;
            IsJavaInt(a.slideTop) && IsJavaInt(a.slideBottom) && IsJavaInt(a.speed)
    ensures forall c :: c in Output(v, look, Some(f), width, height, current, previous) ==> CmdFits(c)
  {
    AnimFitsJavaInts(v, look, f, width, height);
    var mask := Fills<P, B>(MaskRects(f, width, height), MaskColor(v, look));
    assert forall c :: c in mask ==> CmdFits(c);
    if v.resultBitmap.None? {
      DecorationsFitJavaInts(v, look, f, width, height);
      var cs := Circles<P, B>(current, f, CurrentRadius, look.resultPointColor);
      var ps := Circles<P, B>(previous, f, PreviousRadius, look.resultPointColor);
      assert forall c :: c in cs ==> CmdFits(c);
      assert forall c :: c in ps ==> CmdFits(c);
    }
  }
}
