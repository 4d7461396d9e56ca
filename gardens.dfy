/** The garden section map: sections declared as a rectangle by two corners
    or as a polygon by its points are normalised to point lists, given a
    label at their vertex average, and bounded by a viewport with a margin of
    5 around every section point. */
module Gardens {
  import opened Plane

  datatype Option<T> = None | Some(value: T)

  datatype Result<T, E> = Ok(value: T) | Err(error: E)

  /** The failures the map script runs into. The first four are the
      exceptions a malformed section entry raises (a missing key, a corner
      list that does not unpack into four numbers); NoSections is the
      script's own "No sections defined" exit. */
  datatype SectionError = MissingKind | MissingCoords | WrongCoordCount | MissingPoints | NoSections

  /** A section's outline: two opposite corners in any order, or a polygon's
      points in their declared order. */
  datatype Outline = Rect(x1: real, y1: real, x2: real, y2: real) | Poly(points: seq<Point>)

  /** A plant marker; an empty note stands for an absent one. */
  datatype Plant = Plant(name: string, position: Point, note: string, labelOffset: Option<Point>)

  /** A section; an empty note stands for an absent one. Colours are not
      modelled. */
  datatype Section = Section(name: string, outline: Outline, note: string,
                             labelOffset: Option<Point>, plants: seq<Plant>)

  /** A section entry as the configuration file gives it: whichever of the
      `kind` tag, `coords` and `points` it carries. */
  datatype SectionEntry = SectionEntry(kind: Option<string>, coords: Option<seq<real>>, points: Option<seq<Point>>)

  const Margin: real := 5.0

  // ---- outlines ----

  /** How the script reads an entry's geometry: an entry without a kind is
      an error; the kind "rect" takes the four numbers of `coords`; every
      other kind is a polygon over `points`, so there is no unknown-kind
      error. */
  function OutlineOf(e: SectionEntry): (r: Result<Outline, SectionError>)
    ensures e.kind == Some("rect") ==>
      (r.Ok? <==> e.coords.Some? && |e.coords.value| == 4)
    ensures e.kind == Some("rect") && r.Ok? ==>
      r.value.Rect? && [r.value.x1, r.value.y1, r.value.x2, r.value.y2] == e.coords.value
    ensures e.kind.Some? && e.kind.value != "rect" ==> (r.Ok? <==> e.points.Some?)
    ensures e.kind.Some? && e.kind.value != "rect" && r.Ok? ==> r.value == Poly(e.points.value)
    // the four failures: a missing key, or corners that do not unpack into four
    ensures e.kind.None? ==> r == Err(MissingKind)
    ensures e.kind == Some("rect") && e.coords.None? ==> r == Err(MissingCoords)
    ensures e.kind == Some("rect") && e.coords.Some? && |e.coords.value| != 4 ==> r == Err(WrongCoordCount)
    ensures e.kind.Some? && e.kind.value != "rect" && e.points.None? ==> r == Err(MissingPoints)
  {
    match e.kind
    case None => Err(MissingKind)
    case Some(k) =>
      if k == "rect" then
        match e.coords
        case None => Err(MissingCoords)
        case Some(cs) =>
          if |cs| == 4 then Ok(Rect(cs[0], cs[1], cs[2], cs[3])) else Err(WrongCoordCount)
      else
        match e.points
        case None => Err(MissingPoints)
        case Some(ps) => Ok(Poly(ps))
  }

  /** The specification of a normalised rectangle over the corners (x1, y1)
      and (x2, y2): four axis-aligned points in counter-clockwise order
      starting at the low corner, whose two x values are x1 and x2 and whose
      two y values are y1 and y2, in some order. */
  ghost predicate IsNormalisedRect(r: seq<Point>, x1: real, y1: real, x2: real, y2: real) {
    && |r| == 4
    && r[0].x <= r[1].x && r[0].y <= r[3].y
    && r[0].x == r[3].x && r[1].x == r[2].x
    && r[0].y == r[1].y && r[2].y == r[3].y
    && ((r[0].x, r[1].x) == (x1, x2) || (r[0].x, r[1].x) == (x2, x1))
    && ((r[0].y, r[3].y) == (y1, y2) || (r[0].y, r[3].y) == (y2, y1))
  }

  function Lower(a: real, b: real): real { if a <= b then a else b }

  function Upper(a: real, b: real): real { if a <= b then b else a }

  /** _rect_points: the corners sorted on each axis, listed from the low
      corner counter-clockwise. */
  function RectPoints(x1: real, y1: real, x2: real, y2: real): (r: seq<Point>)
    ensures IsNormalisedRect(r, x1, y1, x2, y2)
  {
    var xl, xh := Lower(x1, x2), Upper(x1, x2);
    var yl, yh := Lower(y1, y2), Upper(y1, y2);
    [Point(xl, yl), Point(xh, yl), Point(xh, yh), Point(xl, yh)]
  }

  /** A normalised rectangle is unique: the specification leaves no choice. */
  lemma NormalisedRectUnique(r: seq<Point>, s: seq<Point>, x1: real, y1: real, x2: real, y2: real)
    requires IsNormalisedRect(r, x1, y1, x2, y2) && IsNormalisedRect(s, x1, y1, x2, y2)
    ensures r == s
  {
    assert r[0] == s[0] && r[1] == s[1] && r[2] == s[2] && r[3] == s[3];
  }

  /** The corner order does not matter: swapping the two corners, or only
      their x values, or only their y values, gives the same point list. */
  lemma RectPointsOrderIndependent(x1: real, y1: real, x2: real, y2: real)
    ensures RectPoints(x2, y2, x1, y1) == RectPoints(x1, y1, x2, y2)
    ensures RectPoints(x2, y1, x1, y2) == RectPoints(x1, y1, x2, y2)
    ensures RectPoints(x1, y2, x2, y1) == RectPoints(x1, y1, x2, y2)
  {
    var r := RectPoints(x1, y1, x2, y2);
    NormalisedRectUnique(RectPoints(x2, y2, x1, y1), r, x1, y1, x2, y2);
    NormalisedRectUnique(RectPoints(x2, y1, x1, y2), r, x1, y1, x2, y2);
    NormalisedRectUnique(RectPoints(x1, y2, x2, y1), r, x1, y1, x2, y2);
  }

  /** _section_points: a rectangle is normalised, a polygon's points are
      returned unchanged and in order. */
  function SectionPoints(o: Outline): (r: seq<Point>)
    ensures o.Rect? ==> IsNormalisedRect(r, o.x1, o.y1, o.x2, o.y2)
    ensures o.Poly? ==> r == o.points
  {
    match o
    case Rect(x1, y1, x2, y2) => RectPoints(x1, y1, x2, y2)
    case Poly(ps) => ps
  }

  /** The patch the map draws for a rectangle: origin at the smaller
      coordinates, size the absolute differences. */
  function RectPatch(x1: real, y1: real, x2: real, y2: real): Shape {
    Box(Point(Lower(x1, x2), Lower(y1, y2)),
        if x2 >= x1 then x2 - x1 else x1 - x2,
        if y2 >= y1 then y2 - y1 else y1 - y2)
  }

  /** The drawn patch and the normalised points describe the same rectangle:
      the patch starts at the first point and ends at the third. */
  lemma RectPatchMatchesPoints(x1: real, y1: real, x2: real, y2: real)
    ensures var b := RectPatch(x1, y1, x2, y2); var r := RectPoints(x1, y1, x2, y2);
      && b.origin == r[0] && FarCorner(b) == r[2]
      && b.w >= 0.0 && b.h >= 0.0
  {
  }

  // ---- coordinates, sums, extremes ----

  function Xs(pts: seq<Point>): seq<real> {
    seq(|pts|, i requires 0 <= i < |pts| => pts[i].x)
  }

  function Ys(pts: seq<Point>): seq<real> {
    seq(|pts|, i requires 0 <= i < |pts| => pts[i].y)
  }

  function Sum(s: seq<real>): real {
    if s == [] then 0.0 else s[0] + Sum(s[1..])
  }

  /** Python's min over a non-empty list. */
  function SeqMin(s: seq<real>): real
    requires |s| > 0
  {
    if |s| == 1 then s[0]
    else
      var rest := SeqMin(s[1..]);
      if s[0] <= rest then s[0] else rest
  }

  /** Python's max over a non-empty list. */
  function SeqMax(s: seq<real>): real
    requires |s| > 0
  {
    if |s| == 1 then s[0]
    else
      var rest := SeqMax(s[1..]);
      if s[0] >= rest then s[0] else rest
  }

  /** The minimum is at most every element and is one of them. */
  lemma {:induction false} SeqMinIsLeast(s: seq<real>)
    requires |s| > 0
    ensures forall i :: 0 <= i < |s| ==> SeqMin(s) <= s[i]
    ensures exists i :: 0 <= i < |s| && s[i] == SeqMin(s)
  {
    if |s| > 1 {
      var t := s[1..];
      SeqMinIsLeast(t);
      assert forall i :: 0 < i < |s| ==> s[i] == t[i - 1];
      var j :| 0 <= j < |t| && t[j] == SeqMin(t);
      if s[0] <= SeqMin(t) {
        assert s[0] == SeqMin(s);
      } else {
        assert s[j + 1] == SeqMin(s);
      }
    } else {
      assert s[0] == SeqMin(s);
    }
  }

  /** The maximum is at least every element and is one of them. */
  lemma {:induction false} SeqMaxIsGreatest(s: seq<real>)
    requires |s| > 0
    ensures forall i :: 0 <= i < |s| ==> s[i] <= SeqMax(s)
    ensures exists i :: 0 <= i < |s| && s[i] == SeqMax(s)
  {
    if |s| > 1 {
      var t := s[1..];
      SeqMaxIsGreatest(t);
      assert forall i :: 0 < i < |s| ==> s[i] == t[i - 1];
      var j :| 0 <= j < |t| && t[j] == SeqMax(t);
      if s[0] >= SeqMax(t) {
        assert s[0] == SeqMax(s);
      } else {
        assert s[j + 1] == SeqMax(s);
      }
    } else {
      assert s[0] == SeqMax(s);
    }
  }

  /** k copies of v added up. */
  function Times(k: nat, v: real): real {
    if k == 0 then 0.0 else v + Times(k - 1, v)
  }

  /** A sum of values each at least lo is at least as many copies of lo. */
  lemma {:induction false} SumAtLeast(s: seq<real>, lo: real)
    requires forall i :: 0 <= i < |s| ==> lo <= s[i]
    ensures Times(|s|, lo) <= Sum(s)
  {
    if s != [] {
      var t := s[1..];
      assert forall i :: 0 <= i < |t| ==> t[i] == s[i + 1];
      SumAtLeast(t, lo);
    }
  }

  /** A sum of values each at most hi is at most as many copies of hi. */
  lemma {:induction false} SumAtMost(s: seq<real>, hi: real)
    requires forall i :: 0 <= i < |s| ==> s[i] <= hi
    ensures Sum(s) <= Times(|s|, hi)
  {
    if s != [] {
      var t := s[1..];
      assert forall i :: 0 <= i < |t| ==> t[i] == s[i + 1];
      SumAtMost(t, hi);
    }
  }

  lemma {:induction false} TimesIsProduct(k: nat, v: real)
    ensures Times(k, v) == (k as real) * v
  {
    if k > 0 {
      TimesIsProduct(k - 1, v);
      assert (k as real) * v == ((k - 1) as real) * v + v;
    }
  }

  /** The average of k values bounded by lo and hi is bounded by them too. */
  lemma AverageBetween(total: real, k: nat, lo: real, hi: real)
    requires k > 0 && Times(k, lo) <= total <= Times(k, hi)
    ensures lo <= total / (k as real) <= hi
  {
    TimesIsProduct(k, lo);
    TimesIsProduct(k, hi);
    var n := k as real;
    assert total == n * (total / n);
  }

  /** The average of a non-empty list lies between its least and its
      greatest element. */
  lemma AverageOfBounded(s: seq<real>)
    requires |s| > 0
    ensures SeqMin(s) <= Sum(s) / (|s| as real) <= SeqMax(s)
  {
    SeqMinIsLeast(s);
    SeqMaxIsGreatest(s);
    SumAtLeast(s, SeqMin(s));
    SumAtMost(s, SeqMax(s));
    AverageBetween(Sum(s), |s|, SeqMin(s), SeqMax(s));
  }

  // ---- centre and labels ----

  /** _section_center: the vertex average (not the area centroid). The
      script divides by the number of points, so an empty list fails there. */
  function Centre(pts: seq<Point>): (c: Point)
    requires |pts| > 0
    ensures SeqMin(Xs(pts)) <= c.x <= SeqMax(Xs(pts))
    ensures SeqMin(Ys(pts)) <= c.y <= SeqMax(Ys(pts))
  {
    var n := |pts| as real;
    var xs, ys := Xs(pts), Ys(pts);
    var cx, cy := Sum(xs) / n, Sum(ys) / n;
    AverageOfBounded(xs);
    AverageOfBounded(ys);
    Point(cx, cy)
  }

  lemma SumOfFour(a: real, b: real, c: real, d: real)
    ensures Sum([a, b, c, d]) == a + b + c + d
  {
    assert [a, b, c, d][1..] == [b, c, d];
    assert [b, c, d][1..] == [c, d];
    assert [c, d][1..] == [d];
    assert [d][1..] == [];
    assert Sum([d]) == d;
    assert Sum([c, d]) == c + d;
    assert Sum([b, c, d]) == b + c + d;
  }

  /** The centre of a normalised rectangle is the midpoint of its corners. */
  lemma RectCentreIsMidpoint(x1: real, y1: real, x2: real, y2: real)
    ensures Centre(RectPoints(x1, y1, x2, y2)) == Point((x1 + x2) / 2.0, (y1 + y2) / 2.0)
  {
    var r := RectPoints(x1, y1, x2, y2);
    assert Xs(r) == [r[0].x, r[1].x, r[2].x, r[3].x];
    assert Ys(r) == [r[0].y, r[1].y, r[2].y, r[3].y];
    SumOfFour(r[0].x, r[1].x, r[2].x, r[3].x);
    SumOfFour(r[0].y, r[1].y, r[2].y, r[3].y);
  }

  /** The worked example: corners (0, 0) and (1, 20). */
  lemma UnitStripExample()
    ensures RectPoints(0.0, 0.0, 1.0, 20.0)
      == [Point(0.0, 0.0), Point(1.0, 0.0), Point(1.0, 20.0), Point(0.0, 20.0)]
    ensures Centre(RectPoints(0.0, 0.0, 1.0, 20.0)) == Point(0.5, 10.0)
  {
    RectCentreIsMidpoint(0.0, 0.0, 1.0, 20.0);
  }

  /** A label's text: the name, and the note on a second line when there is
      one. */
  function LabelText(name: string, note: string): (t: string)
    ensures |name| <= |t| && t[..|name|] == name
    ensures note == "" ==> t == name
    ensures note != "" ==> |t| == |name| + 1 + |note| && t[|name|] == '\n' && t[|name| + 1..] == note
  {
    if note != "" then name + "\n" + note else name
  }

  function OffsetOr(offset: Option<Point>, default: Point): Point {
    match offset
    case Some(p) => p
    case None => default
  }

  /** The label of a section: its text at the vertex average, moved by the
      section's label offset, (0, 0) when it has none. */
  function SectionLabel(s: Section): (l: Shape)
    requires |SectionPoints(s.outline)| > 0
    ensures l.Label? && l.text == LabelText(s.name, s.note)
    ensures s.labelOffset.None? ==> l.at == Centre(SectionPoints(s.outline))
    ensures s.labelOffset.Some? ==>
      l.at.x - s.labelOffset.value.x == Centre(SectionPoints(s.outline)).x
      && l.at.y - s.labelOffset.value.y == Centre(SectionPoints(s.outline)).y
  {
    var c := Centre(SectionPoints(s.outline));
    var off := OffsetOr(s.labelOffset, Point(0.0, 0.0));
    Label(Point(c.x + off.x, c.y + off.y), LabelText(s.name, s.note))
  }

  /** The label of a plant: its text at its position moved by the plant's
      label offset, (0.4, 0.4) when it has none. */
  function PlantLabel(p: Plant): (l: Shape)
    ensures l.Label? && l.text == LabelText(p.name, p.note)
    ensures p.labelOffset.None? ==> l.at == Point(p.position.x + 0.4, p.position.y + 0.4)
    ensures p.labelOffset.Some? ==>
      l.at.x - p.labelOffset.value.x == p.position.x
      && l.at.y - p.labelOffset.value.y == p.position.y
  {
    var off := OffsetOr(p.labelOffset, Point(0.4, 0.4));
    Label(Point(p.position.x + off.x, p.position.y + off.y), LabelText(p.name, p.note))
  }

  /** An unshifted rectangle section is labelled at the midpoint of its
      corners. */
  lemma RectSectionLabelAtMidpoint(s: Section)
    requires s.outline.Rect? && s.labelOffset.None?
    ensures SectionLabel(s).at == Point((s.outline.x1 + s.outline.x2) / 2.0, (s.outline.y1 + s.outline.y2) / 2.0)
  {
    RectCentreIsMidpoint(s.outline.x1, s.outline.y1, s.outline.x2, s.outline.y2);
  }

  // ---- bounds ----

  /** Every section's points, section after section, as the bounds pass
      collects them. */
  function AllPoints(sections: seq<Section>): seq<Point> {
    if sections == [] then []
    else AllPoints(sections[..|sections| - 1]) + SectionPoints(sections[|sections| - 1].outline)
  }

  /** Every point of every section is among the collected points. */
  lemma {:induction false} AllPointsCover(sections: seq<Section>, i: nat, k: nat)
    requires i < |sections| && k < |SectionPoints(sections[i].outline)|
    ensures SectionPoints(sections[i].outline)[k] in AllPoints(sections)
  {
    var last := |sections| - 1;
    if i < last {
      AllPointsCover(sections[..last], i, k);
    } else {
      assert AllPoints(sections)[|AllPoints(sections[..last])| + k] == SectionPoints(sections[i].outline)[k];
    }
  }

  /** Every collected point is a point of some section. */
  lemma {:induction false} AllPointsFromSections(sections: seq<Section>, j: nat)
    requires j < |AllPoints(sections)|
    ensures exists i, k ::
      && 0 <= i < |sections| && 0 <= k < |SectionPoints(sections[i].outline)|
      && SectionPoints(sections[i].outline)[k] == AllPoints(sections)[j]
  {
    var last := |sections| - 1;
    var front := AllPoints(sections[..last]);
    if j < |front| {
      AllPointsFromSections(sections[..last], j);
      var i, k :| 0 <= i < last && 0 <= k < |SectionPoints(sections[..last][i].outline)|
        && SectionPoints(sections[..last][i].outline)[k] == front[j];
      assert sections[..last][i] == sections[i];
    } else {
      assert SectionPoints(sections[last].outline)[j - |front|] == AllPoints(sections)[j];
    }
  }

  /** The viewport of a point list: the extremes widened by the margin on
      every side, None when there are no points (Python's min and max raise
      on an empty list). */
  function BoundsOf(pts: seq<Point>): (b: Option<Viewport>)
    ensures b.None? <==> |pts| == 0
  {
    if |pts| == 0 then None
    else Some(Viewport(SeqMin(Xs(pts)) - Margin, SeqMax(Xs(pts)) + Margin,
                       SeqMin(Ys(pts)) - Margin, SeqMax(Ys(pts)) + Margin))
  }

  /** The viewport with its margin taken off. */
  function Inner(v: Viewport): Viewport {
    Viewport(v.xmin + Margin, v.xmax - Margin, v.ymin + Margin, v.ymax - Margin)
  }

  /** Every point of every section lies at least the margin inside the
      bounds. */
  lemma BoundsContainSections(sections: seq<Section>, i: nat, k: nat)
    requires i < |sections| && k < |SectionPoints(sections[i].outline)|
    ensures BoundsOf(AllPoints(sections)).Some?
    ensures PointIn(SectionPoints(sections[i].outline)[k], Inner(BoundsOf(AllPoints(sections)).value))
  {
    AllPointsCover(sections, i, k);
    var pts := AllPoints(sections);
    var j :| 0 <= j < |pts| && pts[j] == SectionPoints(sections[i].outline)[k];
    SeqMinIsLeast(Xs(pts)); SeqMaxIsGreatest(Xs(pts));
    SeqMinIsLeast(Ys(pts)); SeqMaxIsGreatest(Ys(pts));
    assert Xs(pts)[j] == pts[j].x && Ys(pts)[j] == pts[j].y;
  }

  /** Some point of some section has x coordinate x. */
  ghost predicate SectionsReachX(sections: seq<Section>, x: real) {
    exists i, k :: 0 <= i < |sections| && 0 <= k < |SectionPoints(sections[i].outline)|
      && SectionPoints(sections[i].outline)[k].x == x
  }

  /** Some point of some section has y coordinate y. */
  ghost predicate SectionsReachY(sections: seq<Section>, y: real) {
    exists i, k :: 0 <= i < |sections| && 0 <= k < |SectionPoints(sections[i].outline)|
      && SectionPoints(sections[i].outline)[k].y == y
  }

  lemma CollectedPointReached(sections: seq<Section>, j: nat)
    requires j < |AllPoints(sections)|
    ensures SectionsReachX(sections, AllPoints(sections)[j].x)
    ensures SectionsReachY(sections, AllPoints(sections)[j].y)
  {
    AllPointsFromSections(sections, j);
  }

  /** The least and greatest collected x and y are each reached by a point
      of some section. */
  lemma ExtremesReached(sections: seq<Section>)
    requires |AllPoints(sections)| > 0
    ensures var pts := AllPoints(sections);
      && SectionsReachX(sections, SeqMin(Xs(pts))) && SectionsReachX(sections, SeqMax(Xs(pts)))
      && SectionsReachY(sections, SeqMin(Ys(pts))) && SectionsReachY(sections, SeqMax(Ys(pts)))
  {
    var pts := AllPoints(sections);
    SeqMinIsLeast(Xs(pts)); SeqMaxIsGreatest(Xs(pts));
    SeqMinIsLeast(Ys(pts)); SeqMaxIsGreatest(Ys(pts));
    var a :| 0 <= a < |pts| && Xs(pts)[a] == SeqMin(Xs(pts));
    CollectedPointReached(sections, a);
    var b :| 0 <= b < |pts| && Xs(pts)[b] == SeqMax(Xs(pts));
    CollectedPointReached(sections, b);
    var c :| 0 <= c < |pts| && Ys(pts)[c] == SeqMin(Ys(pts));
    CollectedPointReached(sections, c);
    var e :| 0 <= e < |pts| && Ys(pts)[e] == SeqMax(Ys(pts));
    CollectedPointReached(sections, e);
  }

  /** The bounds are tight: each of the four margin-inset edges is reached by
      a point of some section; hence each side is at least twice the margin. */
  lemma BoundsTight(sections: seq<Section>)
    requires |AllPoints(sections)| > 0
    ensures var v := Inner(BoundsOf(AllPoints(sections)).value);
      && SectionsReachX(sections, v.xmin) && SectionsReachX(sections, v.xmax)
      && SectionsReachY(sections, v.ymin) && SectionsReachY(sections, v.ymax)
    ensures var b := BoundsOf(AllPoints(sections)).value;
      b.xmax - b.xmin >= 2.0 * Margin && b.ymax - b.ymin >= 2.0 * Margin
  {
    var pts := AllPoints(sections);
    ExtremesReached(sections);
    SeqMinIsLeast(Xs(pts)); SeqMaxIsGreatest(Xs(pts));
    SeqMinIsLeast(Ys(pts)); SeqMaxIsGreatest(Ys(pts));
    assert Xs(pts)[0] == pts[0].x && Ys(pts)[0] == pts[0].y;
  }

  lemma AllPointsSnoc(sections: seq<Section>, i: nat)
    requires i < |sections|
    ensures AllPoints(sections[..i + 1]) == AllPoints(sections[..i]) + SectionPoints(sections[i].outline)
  {
    assert sections[..i + 1][..i] == sections[..i];
  }

  lemma XsYsAppend(a: seq<Point>, b: seq<Point>)
    ensures Xs(a + b) == Xs(a) + Xs(b) && Ys(a + b) == Ys(a) + Ys(b)
  {
  }

  lemma BoundsOfCollected(pts: seq<Point>, xs: seq<real>, ys: seq<real>)
    requires xs == Xs(pts) && ys == Ys(pts) && |xs| > 0
    ensures BoundsOf(pts) == Some(Viewport(SeqMin(xs) - Margin, SeqMax(xs) + Margin,
                                           SeqMin(ys) - Margin, SeqMax(ys) + Margin))
  {
  }

  /** _compute_bounds: the x and y values of every section's points are
      collected in order, then the margin is put around their extremes. None
      stands for the ValueError the script raises when nothing was collected. */
  method ComputeBounds(sections: seq<Section>) returns (b: Option<Viewport>)
    ensures b == BoundsOf(AllPoints(sections))
  {
    var xs: seq<real> := [];
    var ys: seq<real> := [];
    for i := 0 to |sections|
      invariant xs == Xs(AllPoints(sections[..i]))
      invariant ys == Ys(AllPoints(sections[..i]))
    {
      var pts := SectionPoints(sections[i].outline);
      AllPointsSnoc(sections, i);
      XsYsAppend(AllPoints(sections[..i]), pts);
      xs := xs + Xs(pts);
      ys := ys + Ys(pts);
    }
    assert sections[..|sections|] == sections;
    ghost var all := AllPoints(sections);
    assert xs == Xs(all) && ys == Ys(all);
    if |xs| == 0 {
      assert all == [];
      return None;
    }
    b := Some(Viewport(SeqMin(xs) - Margin, SeqMax(xs) + Margin, SeqMin(ys) - Margin, SeqMax(ys) + Margin));
    BoundsOfCollected(all, xs, ys);
  }

  // ---- loading ----

  /** load_sections after parsing: a missing or empty `sections` list is an
      error; otherwise the list is passed on as it is. */
  function LoadSections(sections: Option<seq<Section>>): (r: Result<seq<Section>, SectionError>)
    ensures r.Ok? <==> sections.Some? && |sections.value| > 0
    ensures r.Ok? ==> r.value == sections.value
    ensures r.Err? ==> r.error == NoSections
  {
    match sections
    case None => Err(NoSections)
    case Some(ss) => if |ss| == 0 then Err(NoSections) else Ok(ss)
  }

  /** The map has bounds exactly when some section has at least one point;
      a non-empty section list is not enough. */
  lemma BoundsExistIff(sections: seq<Section>)
    ensures BoundsOf(AllPoints(sections)).Some? <==>
      exists i :: 0 <= i < |sections| && |SectionPoints(sections[i].outline)| > 0
  {
    if |AllPoints(sections)| > 0 {
      AllPointsFromSections(sections, 0);
    }
    if i :| 0 <= i < |sections| && |SectionPoints(sections[i].outline)| > 0 {
      AllPointsCover(sections, i, 0);
    }
  }

  /** The loader's guard does not rule out a map without bounds: a single
      polygon with no points is accepted, and then has none. */
  lemma LoadAcceptsPointlessSection()
    ensures var ss := Some([Section("bed", Poly([]), "", None, [])]);
      && LoadSections(ss).Ok?
      && BoundsOf(AllPoints(LoadSections(ss).value)).None?
  {
    var ss := [Section("bed", Poly([]), "", None, [])];
    assert ss[..0] == [];
  }
}
