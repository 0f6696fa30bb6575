/**
 * The two generations of candidate result points: `possibleResultPoints`, filled by the
 * decoder between draws, and `lastPossibleResultPoints`, the previous draw's set (or
 * null), together with the loop that draws one generation.
 */
module ResultPoints {
  import opened Wrappers
  import opened Colors
  import opened Geometry
  import opened Canvas

  datatype Generations<P> = Generations(possible: set<P>, last: Option<set<P>>)

  /** The previous generation as a set; a null one draws nothing. */
  function LastOrEmpty<P>(last: Option<set<P>>): set<P>
  {
    if last.Some? then last.value else {}
  }

  /**
   * The rotation of one scanning draw. An empty current generation leaves the previous
   * one null; otherwise the current set becomes the previous one and a fresh empty set
   * takes its place. Afterwards the current generation is always empty and the previous
   * one is null or non-empty.
   */
  function Rotate<P>(g: Generations<P>): (r: Generations<P>)
    ensures r.possible == {}
    ensures r.last.None? <==> g.possible == {}
    ensures r.last.Some? ==> r.last.value == g.possible && r.last.value != {}
  {
    if g.possible == {} then Generations(g.possible, None)
    else Generations({}, Some(g.possible))
  }

  /** `ps` visits every element of `s` exactly once (a `HashSet` iteration order). */
  predicate Enumerates<P>(ps: seq<P>, s: set<P>)
  {
    multiset(ps) == multiset(s)
  }

  lemma EnumeratesElems<P>(ps: seq<P>, s: set<P>)
    requires Enumerates(ps, s)
    ensures Elems(ps) == s
  {
    forall x ensures x in ps <==> x in s {
      assert x in ps <==> x in multiset(ps);
      assert x in s <==> x in multiset(s);
    }
  }

  /**
   * The `for (ResultPoint point : ...)` loop: one circle of the given radius and paint
   * colour per point, offset by the frame's top-left corner. `order` is the order in which
   * the set was visited; every point is visited exactly once.
   */
  method DrawCircles<P(==), B>(pts: set<P>, f: Rect, radius: int, color: Color)
    returns (cmds: seq<DrawCmd<P, B>>, order: seq<P>)
    ensures Enumerates(order, pts)
    ensures cmds == Circles(order, f, radius, color)
  {
    cmds, order := [], [];
    var rest := pts;
    while rest != {}
      invariant rest <= pts
      invariant multiset(order) == multiset(pts - rest)
      invariant |cmds| == |order|
      invariant forall i :: 0 <= i < |order| ==> cmds[i] == DrawCircle(order[i], f.left, f.top, radius, color)
      decreases rest
    {
      var point :| point in rest;
      assert pts - (rest - {point}) == (pts - rest) + {point};
      cmds := cmds + [DrawCircle(point, f.left, f.top, radius, color)];
      order := order + [point];
      rest := rest - {point};
    }
    assert pts - rest == pts;
  }
}
