/** Points, viewports and the drawing primitives that both pipelines hand to
    the renderer. A scene is an ordered list of primitives plus the viewport
    the renderer is told to show. */
module Plane {

  datatype Point = Point(x: real, y: real)

  /** The axis limits of a figure: [xmin, xmax] x [ymin, ymax]. */
  datatype Viewport = Viewport(xmin: real, xmax: real, ymin: real, ymax: real)

  /** The drawing primitives the two views and the map use. A Box is a
      rectangle patch given by its origin corner and its size, as the
      renderer's rectangle takes it; a Label is a text anchor. */
  datatype Shape =
    | Polyline(pts: seq<Point>)
    | Segment(from: Point, to: Point)
    | Box(origin: Point, w: real, h: real)
    | Arrow(tail: Point, head: Point)
    | Label(at: Point, text: string)

  datatype Scene = Scene(shapes: seq<Shape>, view: Viewport)

  /** A closed interval on one axis. */
  datatype Span = Span(lo: real, hi: real)

  predicate PointIn(p: Point, v: Viewport) {
    v.xmin <= p.x <= v.xmax && v.ymin <= p.y <= v.ymax
  }

  /** The corner of a box opposite its origin. */
  function FarCorner(s: Shape): Point
    requires s.Box?
  {
    Point(s.origin.x + s.w, s.origin.y + s.h)
  }

  function BoxCentre(s: Shape): Point
    requires s.Box?
  {
    Point(s.origin.x + s.w / 2.0, s.origin.y + s.h / 2.0)
  }

  /** A primitive lies inside a viewport when every point that defines it
      does; the viewport is convex, so for a box its two opposite corners
      suffice, and for a label only its anchor is considered. */
  predicate ShapeIn(s: Shape, v: Viewport) {
    match s
    case Polyline(pts) => forall i :: 0 <= i < |pts| ==> PointIn(pts[i], v)
    case Segment(a, b) => PointIn(a, v) && PointIn(b, v)
    case Box(o, _, _) => PointIn(o, v) && PointIn(FarCorner(s), v)
    case Arrow(a, b) => PointIn(a, v) && PointIn(b, v)
    case Label(at, _) => PointIn(at, v)
  }

  /** Every primitive of the list lies inside the viewport. */
  predicate AllIn(shapes: seq<Shape>, v: Viewport) {
    forall i :: 0 <= i < |shapes| ==> ShapeIn(shapes[i], v)
  }

  /** Every primitive of the scene lies inside its viewport. */
  predicate Fits(sc: Scene) {
    AllIn(sc.shapes, sc.view)
  }

  /** Two lists that fit a viewport fit it together. */
  lemma AllInConcat(a: seq<Shape>, b: seq<Shape>, v: Viewport)
    requires AllIn(a, v) && AllIn(b, v)
    ensures AllIn(a + b, v)
  {
    forall i | 0 <= i < |a + b|
      ensures ShapeIn((a + b)[i], v)
    {
      if i >= |a| {
        assert (a + b)[i] == b[i - |a|];
      }
    }
  }

  predicate SpanWithin(a: Span, outer: Span) {
    outer.lo <= a.lo && a.hi <= outer.hi
  }

  /** Two spans share more than an end point. */
  predicate InteriorsOverlap(a: Span, b: Span) {
    a.lo < b.hi && b.lo < a.hi
  }
}
