/** `drawTriangle`/`drawLine` (src/index.js:122-133), abstracted to the
    ordered list of line segments they hand to the canvas. */
module Raster {
  import opened Geometry

  /** A canvas position; `drawTriangle` is passed only x and y. */
  datatype Point2 = Point2(x: real, y: real)

  /** One `drawLine`: a path from `from` to `to`, stroked. */
  datatype Segment = Segment(from: Point2, to: Point2)

  /** The canvas position of a screen-space vertex. */
  function OnCanvas(v: Vec3): Point2 {
    Point2(v.x, v.y)
  }

  /** The index after `i` in a cyclic sequence of length `n`. */
  function Next(i: nat, n: nat): nat {
    if i + 1 >= n then 0 else i + 1
  }

  /** `drawTriangle`: three lines, corner 0 to 1, 1 to 2 and 2 back to 0. */
  function DrawTriangle(t: Triangle): (segs: seq<Segment>)
    ensures |segs| == 3
    ensures forall i :: 0 <= i < 3 ==>
              segs[i].from == OnCanvas(Corners(t)[i]) && segs[i].to == OnCanvas(Corners(t)[Next(i, 3)])
  {
    [Segment(OnCanvas(t.v0), OnCanvas(t.v1)),
     Segment(OnCanvas(t.v1), OnCanvas(t.v2)),
     Segment(OnCanvas(t.v2), OnCanvas(t.v0))]
  }

  /** A non-empty chain of segments in which each ends where the next starts,
      and the last ends where the first starts. */
  predicate IsClosedOutline(segs: seq<Segment>) {
    |segs| > 0 && forall i :: 0 <= i < |segs| ==> segs[i].to == segs[Next(i, |segs|)].from
  }

  /** The three segments close the triangle's outline, and they start at
      exactly the triangle's three corners. */
  lemma DrawTriangleClosesOutline(t: Triangle)
    ensures IsClosedOutline(DrawTriangle(t))
    ensures (set i | 0 <= i < 3 :: DrawTriangle(t)[i].from) == {OnCanvas(t.v0), OnCanvas(t.v1), OnCanvas(t.v2)}
  {
    var segs := DrawTriangle(t);
    assert segs[0].from == OnCanvas(t.v0);
    assert segs[1].from == OnCanvas(t.v1);
    assert segs[2].from == OnCanvas(t.v2);
  }
}
