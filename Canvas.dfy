/**
 * What one `onDraw` hands to the Android canvas, recorded as a list of commands, and the
 * redraw requests the view posts to its host. `P` is the decoder's result-point type and
 * `B` the bitmap type; both are opaque here.
 */
module Canvas {
  import opened Colors
  import opened Geometry

  datatype DrawCmd<P, B> =
    /** `drawRect` with the paint's current colour. */
    | FillRect(rect: Rect, color: Color)
    /** `drawBitmap(bitmap, left, top, paint)`. */
    | DrawBitmap(bitmap: B, x: int, y: int, color: Color)
    /** The scan-line texture stretched over `dst`, drawn with the paint's current colour. */
    | DrawScanLine(dst: Rect, color: Color)
    /** The first prompt line, centred at (x, y). */
    | DrawTitle(x: int, y: int, color: Color)
    /** The multi-line prompt, laid out `wrapWidth` wide with its origin translated to (x, y). */
    | DrawPrompt(x: int, y: int, wrapWidth: int, color: Color)
    /** A filled circle at the point offset by the frame's top-left corner. */
    | DrawCircle(point: P, originX: int, originY: int, radius: int, color: Color)

  datatype Redraw =
    /** `invalidate()`: redraw the whole view as soon as possible. */
    | Invalidate
    /** `postInvalidateDelayed(delayMs, left, top, right, bottom)`: redraw `region` later. */
    | InvalidateDelayed(delayMs: int, region: Rect)

  /** The same paint colour applied to every rectangle, in order. */
  function Fills<P, B>(rs: seq<Rect>, color: Color): seq<DrawCmd<P, B>>
  {
    seq(|rs|, i requires 0 <= i < |rs| => FillRect(rs[i], color))
  }

  /** One circle per point, in the order the points are visited, offset by the frame origin. */
  function Circles<P, B>(ps: seq<P>, f: Rect, radius: int, color: Color): seq<DrawCmd<P, B>>
  {
    seq(|ps|, i requires 0 <= i < |ps| => DrawCircle(ps[i], f.left, f.top, radius, color))
  }

  /** The points drawn as circles of the given radius. */
  function PointsAt<P, B>(cmds: seq<DrawCmd<P, B>>, radius: int): set<P>
  {
    if cmds == [] then {}
    else (if cmds[0].DrawCircle? && cmds[0].radius == radius then {cmds[0].point} else {})
         + PointsAt(cmds[1..], radius)
  }

  /** The points of a sequence, as a set. */
  function Elems<P>(ps: seq<P>): set<P>
  {
    set x | x in ps
  }

  lemma {:induction false} PointsAtConcat<P, B>(a: seq<DrawCmd<P, B>>, b: seq<DrawCmd<P, B>>, radius: int)
    ensures PointsAt(a + b, radius) == PointsAt(a, radius) + PointsAt(b, radius)
  {
    if a != [] {
      assert (a + b)[1..] == a[1..] + b;
      PointsAtConcat(a[1..], b, radius);
    } else {
      assert a + b == b;
    }
  }

  /** Commands that draw no circle contribute no points. */
  lemma {:induction false} PointsAtNoCircles<P, B>(cmds: seq<DrawCmd<P, B>>, radius: int)
    requires forall c :: c in cmds ==> !c.DrawCircle?
    ensures PointsAt(cmds, radius) == {}
  {
    if cmds != [] {
      assert forall c :: c in cmds[1..] ==> c in cmds;
      PointsAtNoCircles(cmds[1..], radius);
    }
  }

  /** The circles drawn for `ps` at `r` show exactly the points of `ps` at that radius and none at any other. */
  lemma {:induction false} PointsAtCircles<P, B>(ps: seq<P>, f: Rect, r: int, color: Color, radius: int)
    ensures PointsAt(Circles<P, B>(ps, f, r, color), radius) == if radius == r then Elems(ps) else {}
  {
    var cs := Circles<P, B>(ps, f, r, color);
    if ps != [] {
      assert cs[1..] == Circles<P, B>(ps[1..], f, r, color);
      PointsAtCircles<P, B>(ps[1..], f, r, color, radius);
      assert Elems(ps) == {ps[0]} + Elems(ps[1..]) by {
        forall x ensures x in Elems(ps) <==> x in {ps[0]} + Elems(ps[1..]) {
          assert x in ps <==> x == ps[0] || x in ps[1..];
        }
      }
    }
  }
}
