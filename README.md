# Viewfinder overlay of the barcode scanner

A model of `ViewfinderView`, the Android view drawn over the camera preview of the
react-native barcode scanner. Each `onDraw` darkens the canvas outside the framing
rectangle, and then does one of two things:

- In result mode (a decoded bitmap is set), it shows the bitmap.
- In scanning mode, it paints eight white corner strokes, moves the scan line one step
  (wrapping at the bottom), paints the two prompts, and draws the candidate result points
  in two generations. It then asks to be drawn again after 10 ms, limited to the frame.

Canvas calls are recorded as a list of draw commands (`Canvas.DrawCmd`). Redraw requests are
returned as values (`Canvas.Redraw`). The framing rectangle that `CameraManager` supplies is a
parameter of type `Option<Rect>`.

Modules:

- `Colors`: packed ARGB colours as `bv32`, Java's exact `int` bit arithmetic. Holds
  `reSetColor` and Android's `Paint.setAlpha`.
- `Geometry`: rectangles and Java's truncating division. Holds the mask, corner-bracket and
  scan-line rectangles.
- `Canvas`: draw commands, redraw requests, and which points a command list draws.
- `ScanLine`: the one-shot calibration of `slideTop`, `slideBottom` and `SPEEN_DISTANCE`, and
  the per-draw advance with its wrap.
- `ResultPoints`: the two point generations, their rotation, and the loop that draws one
  generation.
- `Overlay`: one `onDraw` as pure functions of the view's fields: `Step` gives the new fields,
  `Output` the commands, `RedrawAfter` the request. Holds the lemmas about single draws and
  sequences of draws.
- `Viewfinder`: the class `ViewfinderView`. Its fields are updated in place, and each
  method is proved against the functions in `Overlay`.

Behaviour of the code worth knowing:

- The step per draw, `(slideBottom - slideTop) / (scanTime / 16 + 2)` at line 197, has no
  lower bound. It is 0 when the sweep is shorter than the divisor, and then the line stands
  still.
- A draw that finds the current generation empty still paints the previous generation it
  captured at line 321. `lastPossibleResultPoints` becomes null only afterwards (line 324),
  so that set is painted at radius 3 in this draw (lines 338-347) and not in the next one.
- On reaching the bottom, the line wraps to the current frame's top plus `CORNER_WIDTH`
  (line 254), not to the calibrated `slideTop`. The line stays within the sweep only while
  the frame and the corner width do not change.
- Before each point loop the code calls `setAlpha(255)` or `setAlpha(127)` and then
  `setColor(resultPointColor)` (lines 330-331 and 340-341). In Android, `setColor` replaces
  the alpha as well. So both generations are painted in `resultPointColor`; only the radius
  (6 or 3) tells them apart.

## Model

| member | source | states |
|---|---|---|
| `Colors.ReSetColor` | android/src/main/java/com/reactnativecomponent/barcode/view/ViewfinderView.java:387-403 | the result is `setAlpha(c, alpha(c) / 2)`, so its alpha is the input alpha halved and its red, green and blue are the input's; it is never a negative int |
| `Colors.ReSetColorExample` | android/src/main/java/com/reactnativecomponent/barcode/view/ViewfinderView.java:387-403 | alpha 0xC8 becomes 0x64 with the RGB bytes kept |
| `Colors.SetAlpha` | android/src/main/java/com/reactnativecomponent/barcode/view/ViewfinderView.java:279-281 | the paint's alpha becomes the given value and its RGB is kept |
| `Geometry.JavaDiv` | android/src/main/java/com/reactnativecomponent/barcode/view/ViewfinderView.java:197 | the quotient has magnitude \|a\| / \|b\| and the sign of a·b (truncation toward zero) |
| `Geometry.MaskRects` | android/src/main/java/com/reactnativecomponent/barcode/view/ViewfinderView.java:205-210 | four rectangles bordering the inclusive frame: the one above ends at its top, the one below starts one row under its bottom, and the left and right ones span its rows and end at its left edge or start one column right of its right edge |
| `Geometry.MaskPartition` | android/src/main/java/com/reactnativecomponent/barcode/view/ViewfinderView.java:205-210 | for a frame inside the canvas, the four mask rectangles and the inclusive frame paint each canvas pixel exactly once, and nothing outside the canvas |
| `Geometry.CornerBracketsShape` | android/src/main/java/com/reactnativecomponent/barcode/view/ViewfinderView.java:225-248 | the right brackets mirror the left ones through the vertical centre line, and the bottom ones mirror the top ones through the horizontal centre line; each stroke is 2·(CW/2) thick and ScreenRate + CW/2 long, centred 5 px outside its frame edge |
| `Geometry.CornerRects` | android/src/main/java/com/reactnativecomponent/barcode/view/ViewfinderView.java:225-248 | exactly eight strokes, one per bracket arm, in drawing order (their shape is stated by `Geometry.CornerBracketsShape`) |
| `Geometry.DefaultCornersPaintNothing` | android/src/main/java/com/reactnativecomponent/barcode/view/ViewfinderView.java:225-248 | with the default corner width 1, no corner stroke paints any pixel |
| `Overlay.ScanLineInSweep` | android/src/main/java/com/reactnativecomponent/barcode/view/ViewfinderView.java:251-275 | the scan line a scanning draw paints is white, spans the frame from its left to its right edge and is 5 px high; when the line was in the sweep before the draw and the step is non-negative, its top lies in [frame.top + CW, slideBottom) |
| `ScanLine.ScanDivisorZero` | android/src/main/java/com/reactnativecomponent/barcode/view/ViewfinderView.java:197 | the step's divisor `scanTime/16 + 2` is zero exactly when scanTime is in [-47, -32] |
| `ScanLine.ScanDivisor` | android/src/main/java/com/reactnativecomponent/barcode/view/ViewfinderView.java:197 | the divisor `scanTime / 16 + 2` is at least 2 for every non-negative scan time |
| `ScanLine.Calibrate` | android/src/main/java/com/reactnativecomponent/barcode/view/ViewfinderView.java:191-198 | afterwards the animator is calibrated; an already calibrated animator is returned unchanged |
| `ScanLine.CalibrationIsOneShot` | android/src/main/java/com/reactnativecomponent/barcode/view/ViewfinderView.java:191-198 | calibrating again, with any frame, corner width or scan time, changes nothing |
| `ScanLine.CalibrationExample` | android/src/main/java/com/reactnativecomponent/barcode/view/ViewfinderView.java:191-198 | top 100, bottom 400, CW 2 and scanTime 1600 give sweep 102..398 and step 2 |
| `ScanLine.StepBounds` | android/src/main/java/com/reactnativecomponent/barcode/view/ViewfinderView.java:197 | for a non-negative scan time and span, the step is between 0 and half the span; it is 0 when the span is shorter than the divisor |
| `ScanLine.AdvanceStaysInSweep` | android/src/main/java/com/reactnativecomponent/barcode/view/ViewfinderView.java:251-255 | with the same frame and a non-negative step, an advance keeps the line in [top+CW, slideBottom); the line either moves down or restarts at top+CW |
| `ScanLine.Advance` | android/src/main/java/com/reactnativecomponent/barcode/view/ViewfinderView.java:251-255 | only the line position changes; it moves down by the step or restarts at top + CW, and afterwards it lies above `slideBottom` unless it restarted |
| `ScanLine.WrapFollowsCurrentFrame` | android/src/main/java/com/reactnativecomponent/barcode/view/ViewfinderView.java:254 | after the frame moves down, the wrap can put the line below the calibrated bottom |
| `ResultPoints.Rotate` | android/src/main/java/com/reactnativecomponent/barcode/view/ViewfinderView.java:320-329 | afterwards the current generation is empty; the previous one is null exactly when the current one was empty, and otherwise is the non-empty old current set |
| `ResultPoints.DrawCircles` | android/src/main/java/com/reactnativecomponent/barcode/view/ViewfinderView.java:332-336 | visits every point of the set exactly once and emits one circle per visited point, in visiting order, offset by the frame origin |
| `Overlay.Step` | android/src/main/java/com/reactnativecomponent/barcode/view/ViewfinderView.java:183-354 | a draw with a frame leaves the animator calibrated; it never changes the corner width, scan time, `drawLine` or mode |
| `Overlay.AddPoints` | android/src/main/java/com/reactnativecomponent/barcode/view/ViewfinderView.java:378-381 | the reported points join the current generation; the previous generation, the animator and the mode are unchanged |
| `Overlay.Decorations` | android/src/main/java/com/reactnativecomponent/barcode/view/ViewfinderView.java:223-299 | a scanning draw paints ten commands between the mask and the points (eleven with `drawLine`), and none of them is a circle |
| `Overlay.Output` | android/src/main/java/com/reactnativecomponent/barcode/view/ViewfinderView.java:183-354 | a draw paints nothing exactly when there is no frame; in result mode it paints no point circle |
| `Overlay.RedrawAfter` | android/src/main/java/com/reactnativecomponent/barcode/view/ViewfinderView.java:349-352 | a redraw is requested exactly for a draw with a frame in scanning mode, and it is the 10 ms request limited to the frame |
| `Overlay.AbsentFrameIsSkipped` | android/src/main/java/com/reactnativecomponent/barcode/view/ViewfinderView.java:185-189 | without a frame, a draw changes no field, paints nothing and requests no redraw |
| `Overlay.MaskComesFirst` | android/src/main/java/com/reactnativecomponent/barcode/view/ViewfinderView.java:205-210 | every draw with a frame starts with the four mask rectangles, painted in `resultColor` in result mode and in `maskColor` otherwise |
| `Overlay.ResultModeDraw` | android/src/main/java/com/reactnativecomponent/barcode/view/ViewfinderView.java:212-217 | in result mode a draw emits only the mask and the opaque bitmap at (frame.left, frame.top) and requests no redraw; it keeps the point generations, and once calibrated it changes no field |
| `Overlay.ScanningDraw` | android/src/main/java/com/reactnativecomponent/barcode/view/ViewfinderView.java:219-352 | while scanning, the mask is followed by the eight white corner strokes; with `drawLine`, the scan line follows at the advanced position; the draw requests a 10 ms redraw of the frame |
| `Overlay.PointsDrawn` | android/src/main/java/com/reactnativecomponent/barcode/view/ViewfinderView.java:320-347 | a scanning draw shows exactly the current generation at radius 6 and exactly the pre-rotation previous generation at radius 3, and no other circles; the fields then hold the rotated generations |
| `Overlay.PointLifetime` | android/src/main/java/com/reactnativecomponent/barcode/view/ViewfinderView.java:320-347 | a current point is drawn at radius 6 in draw k and at radius 3 in draw k+1; at radius 6 in draw k+1 only if reported again; not at all in draw k+2 unless reported again; an empty interval leaves the previous generation null |
| `Overlay.LineStaysInSweep` | android/src/main/java/com/reactnativecomponent/barcode/view/ViewfinderView.java:251-255 | with an unchanged frame and a non-negative step, the line stays in [top+CW, slideBottom) after any number of draws; the sweep bottom and the step never change |
| `Overlay.LineAlwaysInSweep` | android/src/main/java/com/reactnativecomponent/barcode/view/ViewfinderView.java:191-255 | starting uncalibrated, with a non-negative scan time and a frame taller than 2·CW, the line is inside the sweep after every draw from the first on |
| `Overlay.DrawFitsJavaInts` | android/src/main/java/com/reactnativecomponent/barcode/view/ViewfinderView.java:191-273 | under the magnitude bound, every sum a draw computes and every coordinate it emits is a Java int, so unbounded arithmetic matches Java's |
| `Viewfinder.ViewfinderView.constructor` | android/src/main/java/com/reactnativecomponent/barcode/view/ViewfinderView.java:151-172 | the view starts in scanning mode with no points, uncalibrated, with CW 1, step 6 and `drawLine` set; the secondary tone is `reSetColor` of the accent colour |
| `Viewfinder.ViewfinderView.SetCornerWidth` | android/src/main/java/com/reactnativecomponent/barcode/view/ViewfinderView.java:174-176 | only the corner width changes |
| `Viewfinder.ViewfinderView.OnDraw` | android/src/main/java/com/reactnativecomponent/barcode/view/ViewfinderView.java:183-354 | the new fields, the commands and the redraw request are exactly `Step`, `Output` and `RedrawAfter` of the old fields; each point set is visited exactly once |
| `Viewfinder.ViewfinderView.CalibrateLine` | android/src/main/java/com/reactnativecomponent/barcode/view/ViewfinderView.java:191-198 | the animator becomes `Calibrate` of its old value, and no other field changes |
| `Viewfinder.ViewfinderView.AdvanceLine` | android/src/main/java/com/reactnativecomponent/barcode/view/ViewfinderView.java:252-255 | the animator becomes `Advance` of its old value for the current frame top, and no other field changes |
| `Viewfinder.ViewfinderView.RotatePoints` | android/src/main/java/com/reactnativecomponent/barcode/view/ViewfinderView.java:320-347 | the generations become `Rotate` of the old ones; the commands are radius-6 circles for the old current set, then radius-3 circles for the old previous set |
| `Viewfinder.ViewfinderView.GetCameraTop` | android/src/main/java/com/reactnativecomponent/barcode/view/ViewfinderView.java:356-359 | returns the frame's top; a frame must be present |
| `Viewfinder.ViewfinderView.DrawViewfinder` | android/src/main/java/com/reactnativecomponent/barcode/view/ViewfinderView.java:361-365 | clears the result bitmap (back to scanning), changes nothing else, and requests an immediate redraw |
| `Viewfinder.ViewfinderView.DrawResultBitmap` | android/src/main/java/com/reactnativecomponent/barcode/view/ViewfinderView.java:372-376 | stores the bitmap (a null one means scanning mode), changes nothing else, and requests an immediate redraw |
| `Viewfinder.ViewfinderView.AddPossibleResultPoint` | android/src/main/java/com/reactnativecomponent/barcode/view/ViewfinderView.java:378-381 | the point joins the current generation and nothing else changes |
| `Viewfinder.ShowResultThenRescan` | android/src/main/java/com/reactnativecomponent/barcode/view/ViewfinderView.java:361-376 | on a new view, showing a result and drawing emits five commands ending in the bitmap and requests no redraw; after `drawViewfinder`, a draw paints the corner brackets and requests the 10 ms frame redraw |

## Left out

- Prompt text (lines 279-299) is recorded only as two commands: `DrawTitle` (position and paint colour) and `DrawPrompt` (origin, wrap width and paint colour). The text strings, the float text size from the display density and `StaticLayout` line breaking are not modelled.
- Canvas state: line 290 calls `translate(57, frame.top - 140)` and line 299 calls `restore()` with no matching `save()`. Android treats more restores than saves as an error. Depending on the platform, the draw then fails, or the translation stays in force for the circles at lines 334-345. The model records the arguments of each call and keeps no canvas matrix, so it shows neither outcome.
- `ScreenRate = (int)(15 * density)` is a float conversion. It is a constructor parameter here.
- Resource lookups (the colours, the scan-line drawable) and the bitmap decode at line 274 are outside the model. The colours are constructor parameters, and the scan line is a command carrying its destination rectangle and paint colour.
- `CameraManager.get().getFramingRect()` is passed in as `Option<Rect>`. `canvas.getWidth()` and `getHeight()` are passed in as integers.
- `invalidate()` and `postInvalidateDelayed` are returned as `Redraw` values. Scheduling belongs to the host.
- Result points are an opaque type `P`. Their float coordinates, and the float sum of point and frame origin, are not computed; each circle records the point and the frame origin.
- `HashSet` iteration order is unspecified. `OnDraw` returns the order it used, and every lemma holds for any order.
- `Overlay.PointsDrawn`: does not record the alpha 255 and alpha 127 the code requests for the two point generations. The `setColor` that follows each request replaces that alpha, so both generations are painted in `resultPointColor`.
- Concurrency: `addPossibleResultPoint` runs on the decoder thread against an unsynchronised `HashSet`. The model has only single-threaded interleavings of adds and draws, with no races and no locks.
- `SPEEN_DISTANCE` is static, so all instances share it. Here it is a per-instance field that starts at 6, which matches a single view.
- Viewfinder.ViewfinderView.OnDraw: requires the step divisor `scanTime / 16 + 2` to be non-zero on the calibrating draw. It is zero for scan times -47 to -32 (`ScanLine.ScanDivisorZero`), and there the division at line 197 throws. Java has already set `isFirst`, `slideTop` and `slideBottom` (lines 193-195) by then, so later draws skip calibration and run with the old `SPEEN_DISTANCE`. The model does not follow that aborted draw.
- Java `int` overflow: `OnDraw` requires magnitude bounds (`Overlay.NoOverflow`), under which no sum wraps (`Overlay.DrawFitsJavaInts`). Over very many draws, a negative step can still push `slideTop` out of those bounds in Java; the model does not follow that wrap-around.
- Dead code: the commented-out gradient shader (lines 257-267), the English text split (lines 300-317), `SCANNER_ALPHA` and `scannerAlpha`, `laserColor`, `MIDDLE_LINE_WIDTH` and its setter `setMIDDLE_LINE_WIDTH` (only commented code reads them), and the unused `frameBaseColor` after construction.
- The public fields `ShowText` and `showFirstText` are not modelled; they feed only the text rendering.
