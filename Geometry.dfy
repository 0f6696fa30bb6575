/**
 * Integer rectangles and the pixel geometry of the viewfinder overlay: the four mask
 * rectangles around the framing rectangle, the eight corner-bracket strokes and the
 * scan-line rectangle.
 *
 * `Rect(left, top, right, bottom)` has the argument order of `Canvas.drawRect`; a fill
 * covers the half-open area [left, right) x [top, bottom).
 */
module Geometry {
  datatype Rect = Rect(left: int, top: int, right: int, bottom: int)

  /** Distance of the scan-line rectangle's bottom from its top (`MIDDLE_LINE_PADDING`). */
  const MiddleLinePadding := 5
  /** How far each corner stroke sits outside the frame edge. */
  const CornerOffset := 5

  function Abs(x: int): nat { if x < 0 then -x else x }

  /**
   * Java's `/` on `int`: the quotient truncated toward zero (Dafny's `/` is Euclidean).
   * Its magnitude is |a| / |b| and its sign is that of a * b.
   */
  function JavaDiv(a: int, b: int): (q: int)
    requires b != 0
    ensures Abs(q) == Abs(a) / Abs(b)
    ensures q == 0 || (q > 0 <==> (a > 0) == (b > 0))
  {
    var m := Abs(a) / Abs(b);
    assert a == 0 ==> m == 0;
    if (a < 0) == (b < 0) then m else -m
  }

  /** On a non-negative dividend and a positive divisor both divisions agree. */
  lemma JavaDivOfNonNegative(a: int, b: int)
    requires a >= 0 && b > 0
    ensures JavaDiv(a, b) == a / b
  {
  }

  /** They differ on negative dividends: Java gives -1 / 2 == 0, Dafny gives -1. */
  lemma JavaDivTruncates()
    ensures JavaDiv(-1, 2) == 0 && -1 / 2 == -1
  {
  }

  /** True when a fill of `r` paints pixel (x, y). */
  predicate Contains(r: Rect, x: int, y: int)
  {
    r.left <= x < r.right && r.top <= y < r.bottom
  }

  /** The framing rectangle's own pixels: both of its edges are inclusive. */
  function FrameArea(f: Rect): Rect
  {
    Rect(f.left, f.top, f.right + 1, f.bottom + 1)
  }

  /** The number of rectangles of `rs` that paint pixel (x, y). */
  function Hits(rs: seq<Rect>, x: int, y: int): nat
  {
    if rs == [] then 0 else (if Contains(rs[0], x, y) then 1 else 0) + Hits(rs[1..], x, y)
  }

  /** A pixel painted by none of the rectangles has no hits. */
  lemma {:induction false} NoHits(rs: seq<Rect>, x: int, y: int)
    requires forall i :: 0 <= i < |rs| ==> !Contains(rs[i], x, y)
    ensures Hits(rs, x, y) == 0
  {
    if rs != [] {
      NoHits(rs[1..], x, y);
    }
  }

  /** Hits of five rectangles, written out. */
  lemma HitsOfFive(rs: seq<Rect>, x: int, y: int)
    requires |rs| == 5
    ensures Hits(rs, x, y) == (if Contains(rs[0], x, y) then 1 else 0) + (if Contains(rs[1], x, y) then 1 else 0)
                            + (if Contains(rs[2], x, y) then 1 else 0) + (if Contains(rs[3], x, y) then 1 else 0)
                            + (if Contains(rs[4], x, y) then 1 else 0)
  {
    var s1 := rs[1..];
    var s2 := s1[1..];
    var s3 := s2[1..];
    var s4 := s3[1..];
    assert s4[1..] == [];
    assert s1[0] == rs[1] && s2[0] == rs[2] && s3[0] == rs[3] && s4[0] == rs[4];
    assert Hits(s4, x, y) == if Contains(rs[4], x, y) then 1 else 0;
    assert Hits(s3, x, y) == (if Contains(rs[3], x, y) then 1 else 0) + Hits(s4, x, y);
    assert Hits(s2, x, y) == (if Contains(rs[2], x, y) then 1 else 0) + Hits(s3, x, y);
    assert Hits(s1, x, y) == (if Contains(rs[1], x, y) then 1 else 0) + Hits(s2, x, y);
  }

  /** The four darkened rectangles above, left of, right of and below the frame. */
  function MaskRects(f: Rect, width: int, height: int): (r: seq<Rect>)
    ensures |r| == 4
    ensures r[0].bottom == f.top && r[1].right == f.left
    ensures r[2].left == f.right + 1 && r[3].top == f.bottom + 1
    ensures r[1].top == r[2].top == f.top && r[1].bottom == r[2].bottom == f.bottom + 1
  {
    [ Rect(0, 0, width, f.top),
      Rect(0, f.top, f.left, f.bottom + 1),
      Rect(f.right + 1, f.top, width, f.bottom + 1),
      Rect(0, f.bottom + 1, width, height) ]
  }

  /**
   * For a frame lying inside a width x height canvas, the four mask rectangles and the
   * frame's own pixels paint every canvas pixel exactly once and nothing outside it:
   * they are pairwise disjoint and together cover the canvas.
   */
  lemma {:induction false} MaskPartition(f: Rect, width: int, height: int, x: int, y: int)
    requires 0 <= f.left <= f.right < width
    requires 0 <= f.top <= f.bottom < height
    ensures Hits(MaskRects(f, width, height) + [FrameArea(f)], x, y)
            == if 0 <= x < width && 0 <= y < height then 1 else 0
  {
    var rs := MaskRects(f, width, height) + [FrameArea(f)];
    HitsOfFive(rs, x, y);
  }

  /** Mirror image of a rectangle through the frame's vertical centre line, x -> left + right - x. */
  function MirrorX(r: Rect, f: Rect): Rect
  {
    Rect(f.left + f.right - r.right, r.top, f.left + f.right - r.left, r.bottom)
  }

  /** Mirror image of a rectangle through the frame's horizontal centre line, y -> top + bottom - y. */
  function MirrorY(r: Rect, f: Rect): Rect
  {
    Rect(r.left, f.top + f.bottom - r.bottom, r.right, f.top + f.bottom - r.top)
  }

  /** A stroke lying along the x axis, `len` long and `thick` high. */
  predicate HorizontalStroke(r: Rect, len: int, thick: int)
  {
    r.right - r.left == len && r.bottom - r.top == thick
  }

  /** A stroke lying along the y axis, `thick` wide and `len` long. */
  predicate VerticalStroke(r: Rect, len: int, thick: int)
  {
    r.right - r.left == thick && r.bottom - r.top == len
  }

  /**
   * The eight corner-bracket strokes, in drawing order: top-left horizontal and vertical,
   * bottom-left vertical and horizontal, top-right horizontal and vertical, bottom-right
   * vertical and horizontal. `cornerWidth` is `CORNER_WIDTH`, `screenRate` the bracket
   * length `ScreenRate`; the half-width is `CORNER_WIDTH / 2` in Java arithmetic.
   */
  function CornerRects(f: Rect, cornerWidth: int, screenRate: int): (r: seq<Rect>)
    ensures |r| == 8
  {
    var h := JavaDiv(cornerWidth, 2);
    [ Rect(f.left - h - 5, f.top - h - 5, f.left + screenRate - 5, f.top + h - 5),
      Rect(f.left - h - 5, f.top - h - 5, f.left + h - 5, f.top + screenRate - 5),
      Rect(f.left - h - 5, f.bottom - screenRate + 5, f.left + h - 5, f.bottom + h + 5),
      Rect(f.left - h - 5, f.bottom - h + 5, f.left + screenRate - 5, f.bottom + h + 5),
      Rect(f.right - screenRate + 5, f.top - h - 5, f.right + h + 5, f.top + h - 5),
      Rect(f.right - h + 5, f.top - h - 5, f.right + h + 5, f.top + screenRate - 5),
      Rect(f.right - h + 5, f.bottom - screenRate + 5, f.right + h + 5, f.bottom + h + 5),
      Rect(f.right - screenRate + 5, f.bottom - h + 5, f.right + h + 5, f.bottom + h + 5) ]
  }

  /**
   * The right-hand brackets mirror the left-hand ones through the vertical centre line,
   * the bottom ones mirror the top ones through the horizontal centre line; every stroke
   * is 2 * (CORNER_WIDTH / 2) thick and ScreenRate + CORNER_WIDTH / 2 long, and is centred
   * on a line 5 pixels outside the frame edge it follows.
   */
  lemma CornerBracketsShape(f: Rect, cornerWidth: int, screenRate: int)
    ensures var r := CornerRects(f, cornerWidth, screenRate);
            && (forall i :: 0 <= i < 4 ==> r[i + 4] == MirrorX(r[i], f))
            && r[3] == MirrorY(r[0], f) && r[2] == MirrorY(r[1], f)
            && r[7] == MirrorY(r[4], f) && r[6] == MirrorY(r[5], f)
    ensures var r := CornerRects(f, cornerWidth, screenRate);
            var h := JavaDiv(cornerWidth, 2);
            && (forall i :: i in {0, 3, 4, 7} ==> HorizontalStroke(r[i], screenRate + h, 2 * h))
            && (forall i :: i in {1, 2, 5, 6} ==> VerticalStroke(r[i], screenRate + h, 2 * h))
    ensures var r := CornerRects(f, cornerWidth, screenRate);
            && r[0].top + r[0].bottom == 2 * (f.top - CornerOffset)
            && r[3].top + r[3].bottom == 2 * (f.bottom + CornerOffset)
            && r[1].left + r[1].right == 2 * (f.left - CornerOffset)
            && r[5].left + r[5].right == 2 * (f.right + CornerOffset)
  {
  }

  /** With the default `CORNER_WIDTH` of 1 the half-width is 0, so no stroke paints a pixel. */
  lemma DefaultCornersPaintNothing(f: Rect, screenRate: int, x: int, y: int)
    ensures Hits(CornerRects(f, 1, screenRate), x, y) == 0
  {
    var r := CornerRects(f, 1, screenRate);
    forall i | 0 <= i < 8 ensures !Contains(r[i], x, y) {
      assert i in {0, 3, 4, 7} || i in {1, 2, 5, 6};
    }
    NoHits(r, x, y);
  }

  /** The scan line: the texture is stretched over [left, right] x [slideTop, slideTop + 5]. */
  function LineRect(f: Rect, slideTop: int): Rect
  {
    Rect(f.left, slideTop, f.right, slideTop + MiddleLinePadding)
  }
}
