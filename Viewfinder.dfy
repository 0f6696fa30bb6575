/**
 * The overlay view itself: the fields `onDraw` and the public methods update in place.
 * Each method is proved against the pure description of its effect in module Overlay.
 */
module Viewfinder {
  import opened Wrappers
  import opened Colors
  import opened Geometry
  import opened Canvas
  import opened ScanLine
  import opened ResultPoints
  import opened Overlay

  class ViewfinderView<P(==), B> {
    /** The corner-bracket length `ScreenRate`, fixed at construction from the display density. */
    const screenRate: int
    const maskColor: Color
    const resultColor: Color
    const resultPointColor: Color
    /** The `first_scan_desc` resource colour of the title. */
    const firstTextColor: Color
    var frameColor: Color
    var frameBaseColor: Color
    /** `CORNER_WIDTH`. */
    var cornerWidth: int
    var scanTime: int
    var drawLine: bool
    var isFirst: bool
    var slideTop: int
    var slideBottom: int
    /** `SPEEN_DISTANCE`, the step of the scan line per draw. */
    var speed: int
    var resultBitmap: Option<B>
    var possibleResultPoints: set<P>
    var lastPossibleResultPoints: Option<set<P>>

    /** The fields drawing reads or writes, as a value. */
    ghost function Fields(): View<P, B>
      reads this
    {
      View(Anim(isFirst, slideTop, slideBottom, speed), cornerWidth, scanTime, drawLine,
           resultBitmap, Generations(possibleResultPoints, lastPossibleResultPoints))
    }

    /** The fields fixed at construction. */
    function Style(): Look
    {
      Look(screenRate, maskColor, resultColor, resultPointColor, firstTextColor)
    }

    /**
     * A view in scanning mode with no points, an uncalibrated scan line, `CORNER_WIDTH` 1,
     * `drawLine` set, and the secondary tone derived from the accent colour.
     */
    constructor (screenRate: int, maskColor: Color, resultColor: Color, resultPointColor: Color,
                 firstTextColor: Color, time: int, color: Color)
      ensures Fields() == View(Initial, 1, time, true, None, Generations({}, None))
      ensures Style() == Look(screenRate, maskColor, resultColor, resultPointColor, firstTextColor)
      ensures frameColor == color && frameBaseColor == ReSetColor(color)
    {
      this.screenRate := screenRate;
      this.maskColor := maskColor;
      this.resultColor := resultColor;
      this.resultPointColor := resultPointColor;
      this.firstTextColor := firstTextColor;
      cornerWidth := 1;
      speed := 6;
      isFirst, slideTop, slideBottom := false, 0, 0;
      resultBitmap := None;
      lastPossibleResultPoints := None;
      frameColor := color;
      frameBaseColor := ReSetColor(color);
      possibleResultPoints := {};
      drawLine := true;
      scanTime := time;
    }

    /** `setCORNER_WIDTH`: read by the next draw. */
    method SetCornerWidth(cornerWidth: int)
      modifies this`cornerWidth
      ensures Fields() == old(Fields()).(cornerWidth := cornerWidth)
    {
      this.cornerWidth := cornerWidth;
    }

    /**
     * `onDraw`. `frame` is what the camera manager reports as the framing rectangle, and
     * `width` and `height` are the canvas size. Returns the commands painted, the redraw
     * request posted, and the orders in which the two point sets were visited. The new
     * fields, the commands and the request are those of Overlay's Step, Output and
     * RedrawAfter; each visiting order covers its set exactly once.
     */
    method OnDraw(frame: Option<Rect>, width: int, height: int)
      returns (cmds: seq<DrawCmd<P, B>>, redraw: Option<Redraw>, ghost current: seq<P>, ghost previous: seq<P>)
      requires CanDraw(Fields(), frame)
      requires frame.Some? ==> NoOverflow(Fields(), Style(), frame.value, width, height)
      modifies this`isFirst, this`slideTop, this`slideBottom, this`speed
      modifies this`possibleResultPoints, this`lastPossibleResultPoints
      ensures Fields() == Step(old(Fields()), frame)
      ensures cmds == Output(old(Fields()), Style(), frame, width, height, current, previous)
      ensures redraw == RedrawAfter(old(Fields()), frame)
      ensures frame.Some? && old(resultBitmap).None? ==>
                && Enumerates(current, old(possibleResultPoints))
                && Enumerates(previous, LastOrEmpty(old(lastPossibleResultPoints)))
    {
      current, previous := [], [];
      if frame.None? {
        return [], None, current, previous;
      }
      var f := frame.value;
      ghost var before := Fields();

      CalibrateLine(f);

      // The paint is one object whose colour each step overwrites.
      var paint := if resultBitmap.Some? then resultColor else maskColor;
      var mask := Fills(MaskRects(f, width, height), paint);

      if resultBitmap.Some? {
        paint := SetAlpha(paint, Opaque);
        cmds := mask + [DrawBitmap(resultBitmap.value, f.left, f.top, paint)];
        assert cmds == Output(before, Style(), frame, width, height, current, previous);
        return cmds, None, current, previous;
      }

      paint := White;
      var decorations := Fills(CornerRects(f, cornerWidth, screenRate), paint);
      if drawLine {
        AdvanceLine(f);
        decorations := decorations + [DrawScanLine(LineRect(f, slideTop), paint)];
      }
      assert Fields().anim == Step(before, frame).anim;

      paint := SetAlpha(firstTextColor, TextAlpha);
      var textPaint := SetAlpha(White, TextAlpha);
      decorations := decorations + [DrawTitle(JavaDiv(width, 2), f.top - TitleRise, paint),
                                    DrawPrompt(PromptMargin, f.top - PromptRise, width - 2 * PromptMargin, textPaint)];
      assert decorations == Decorations(before, Style(), f, width);

      var circles;
      circles, current, previous := RotatePoints(f, paint);
      cmds := mask + decorations + circles;
      assert cmds == Output(before, Style(), frame, width, height, current, previous);
      redraw := Some(InvalidateDelayed(AnimationDelay, f));
    }

    /** The one-shot calibration at the start of a draw with a frame. */
    method CalibrateLine(f: Rect)
      requires isFirst || ScanDivisor(scanTime) != 0
      modifies this`isFirst, this`slideTop, this`slideBottom, this`speed
      ensures Fields() == old(Fields()).(anim := Calibrate(old(Fields()).anim, f, cornerWidth, scanTime))
    {
      if !isFirst {
        isFirst := true;
        slideTop := f.top + cornerWidth;
        slideBottom := f.bottom - cornerWidth;
        speed := JavaDiv(slideBottom - slideTop, ScanDivisor(scanTime));
      }
    }

    /** The scan line's move by one step, wrapping to the current frame's top. */
    method AdvanceLine(f: Rect)
      modifies this`slideTop
      ensures Fields() == old(Fields()).(anim := Advance(old(Fields()).anim, f.top, cornerWidth))
    {
      slideTop := slideTop + speed;
      if slideTop >= slideBottom {
        slideTop := f.top + cornerWidth;
      }
    }

    /**
     * The end of a scanning draw: rotate the point generations and draw the current one
     * at radius 6, then the previous one captured before the rotation at radius 3.
     */
    method RotatePoints(f: Rect, paintBefore: Color)
      returns (cmds: seq<DrawCmd<P, B>>, ghost current: seq<P>, ghost previous: seq<P>)
      modifies this`possibleResultPoints, this`lastPossibleResultPoints
      ensures Fields() == old(Fields()).(points := Rotate(old(Fields()).points))
      ensures Enumerates(current, old(possibleResultPoints))
      ensures Enumerates(previous, LastOrEmpty(old(lastPossibleResultPoints)))
      ensures cmds == Circles(current, f, CurrentRadius, resultPointColor)
                      + Circles(previous, f, PreviousRadius, resultPointColor)
    {
      var paint := paintBefore;
      var large: seq<DrawCmd<P, B>>, small: seq<DrawCmd<P, B>> := [], [];
      current, previous := [], [];
      var currentPossible := possibleResultPoints;
      var currentLast := lastPossibleResultPoints;
      if currentPossible == {} {
        lastPossibleResultPoints := None;
      } else {
        possibleResultPoints := {};
        lastPossibleResultPoints := Some(currentPossible);
        // setColor replaces the alpha just set as well as the RGB.
        paint := SetAlpha(paint, Opaque);
        paint := resultPointColor;
        large, current := DrawCircles(currentPossible, f, CurrentRadius, paint);
      }
      assert large == Circles(current, f, CurrentRadius, resultPointColor);
      if currentLast.Some? {
        paint := SetAlpha(paint, Opaque / 2);
        paint := resultPointColor;
        small, previous := DrawCircles(currentLast.value, f, PreviousRadius, paint);
      }
      cmds := large + small;
    }

    /**
     * `getCameraTop`: the framing rectangle's top. Java dereferences the rectangle
     * without a check, so a rectangle must be present.
     */
    method GetCameraTop(frame: Option<Rect>) returns (top: int)
      requires frame.Some?
      ensures top == frame.value.top
    {
      top := frame.value.top;
    }

    /** `drawViewfinder`: back to scanning mode, with an immediate redraw. */
    method DrawViewfinder() returns (request: Redraw)
      modifies this`resultBitmap
      ensures Fields() == old(Fields()).(resultBitmap := None)
      ensures request == Invalidate
    {
      resultBitmap := None;
      request := Invalidate;
    }

    /** `drawResultBitmap`: show the decoded image instead of the live overlay, with an immediate redraw. */
    method DrawResultBitmap(barcode: Option<B>) returns (request: Redraw)
      modifies this`resultBitmap
      ensures Fields() == old(Fields()).(resultBitmap := barcode)
      ensures request == Invalidate
    {
      resultBitmap := barcode;
      request := Invalidate;
    }

    /** `addPossibleResultPoint`: the point joins the current generation. */
    method AddPossibleResultPoint(point: P)
      modifies this`possibleResultPoints
      ensures Fields() == AddPoints(old(Fields()), {point})
    {
      possibleResultPoints := possibleResultPoints + {point};
    }
  }

  /**
   * A client of the view: a new view is given a decoded image and drawn, then put back
   * into scanning mode and drawn again. The first draw shows the mask and the image and
   * posts nothing; the second paints the corner brackets and posts the 10 ms redraw of
   * the frame.
   */
  method ShowResultThenRescan<P(==), B>(b: B, f: Rect, width: int, height: int, screenRate: int, time: int)
    returns (shown: seq<DrawCmd<P, B>>, afterShow: Option<Redraw>,
             rescanned: seq<DrawCmd<P, B>>, afterRescan: Option<Redraw>)
    requires ScanDivisor(time) != 0
    requires Small(f.left) && Small(f.top) && Small(f.right) && Small(f.bottom)
    requires Small(width) && Small(height) && Small(screenRate)
    ensures |shown| == 5 && shown[4] == DrawBitmap(b, f.left, f.top, SetAlpha(0, Opaque))
    ensures afterShow == None
    ensures |rescanned| >= 12 && rescanned[4..12] == Fills(CornerRects(f, 1, screenRate), White)
    ensures afterRescan == Some(InvalidateDelayed(AnimationDelay, f))
  {
    var view := new ViewfinderView<P, B>(screenRate, 0, 0, 0, 0, time, White);
    var request := view.DrawResultBitmap(Some(b));
    ghost var v0 := view.Fields();
    ghost var current, previous;
    shown, afterShow, current, previous := view.OnDraw(Some(f), width, height);
    ResultModeDraw(v0, view.Style(), f, width, height, current, previous, b);
    AnimFitsJavaInts(v0, view.Style(), f, width, height);
    request := view.DrawViewfinder();
    ghost var v1 := view.Fields();
    rescanned, afterRescan, current, previous := view.OnDraw(Some(f), width, height);
    ScanningDraw(v1, view.Style(), f, width, height, current, previous);
  }
}
