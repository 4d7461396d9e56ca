/** The geometry of the garage office's two drawings, as pure lists of
    primitives: build_top_down and build_front_elevation without the
    renderer. Label texts keep the feature caption; the size strings the
    script appends are not modelled. */
module GarageOfficeViews {
  import opened Plane
  import opened GarageOffice

  /** The closed room outline, traced from the origin counter-clockwise. */
  function RoomOutline(w: real, h: real): Shape {
    Polyline([Point(0.0, 0.0), Point(w, 0.0), Point(w, h), Point(0.0, h), Point(0.0, 0.0)])
  }

  // ---- plan view ----

  function PlanView(d: DimensionSet): Viewport {
    Viewport(-20.0, d.roomW + 20.0, -20.0, d.roomD + 20.0)
  }

  function OpeningStroke(c: LayoutContext): Shape {
    Segment(Point(c.pdX0, c.pdY), Point(c.pdX1, c.pdY))
  }

  function PocketStroke(c: LayoutContext): Shape {
    Segment(Point(c.pdX2, c.pdY), Point(c.pdX0, c.pdY))
  }

  function DeskPatch(d: DimensionSet, c: LayoutContext): Shape {
    Box(Point(c.deskX, c.deskY), d.deskW, d.deskD)
  }

  function BookshelfPatch(d: DimensionSet, c: LayoutContext): Shape {
    Box(Point(c.bsX, c.bsY), d.bookshelfW, d.bookshelfD)
  }

  /** The HVAC outlet on the office side of the new wall. */
  function OfficeHvacPatch(d: DimensionSet, c: LayoutContext): Shape {
    Box(Point(c.hvacX, c.hvacY), d.hvacW, d.hvacProjOffice)
  }

  /** The HVAC condenser on the garage side, below y = 0. */
  function GarageHvacPatch(d: DimensionSet, c: LayoutContext): Shape {
    Box(Point(c.hvacX, -d.hvacProjGarage), d.hvacW, d.hvacProjGarage)
  }

  /** The width dimension arrow, drawn from the right end (the annotation's
      text position) to the left end (the point it annotates). */
  function WidthArrow(d: DimensionSet): Shape {
    Arrow(Point(d.roomW, -8.0), Point(0.0, -8.0))
  }

  /** The depth dimension arrow, drawn from the far end to the origin. */
  function DepthArrow(d: DimensionSet): Shape {
    Arrow(Point(-8.0, d.roomD), Point(-8.0, 0.0))
  }

  /** The plan's door strokes and window stroke with their captions. */
  function PlanDoorAndWindow(d: DimensionSet, c: LayoutContext): seq<Shape> {
    [ OpeningStroke(c),
      PocketStroke(c),
      Label(Point((c.pdX0 + c.pdX1) / 2.0, d.wallThk), "Pocket Door"),
      Segment(Point(c.winX, d.roomD), Point(c.winX + d.windowW, d.roomD)),
      Label(Point(c.winX + d.windowW / 2.0, d.roomD - 3.0), "Window") ]
  }

  /** The plan's desk, bookshelf and platform stud with their captions. */
  function PlanFurniture(d: DimensionSet, c: LayoutContext): seq<Shape> {
    [ DeskPatch(d, c),
      Label(Point(c.deskX + d.deskW / 2.0, c.deskY + d.deskD / 2.0), "Desk"),
      BookshelfPatch(d, c),
      Label(Point(c.bsX + d.bookshelfW / 2.0, c.bsY + d.bookshelfD / 2.0), "Bookshelf"),
      Box(Point(c.platStudX, 0.0), d.studD, d.platformD),
      Label(Point(c.platStudX / 2.0, d.roomD * 2.0 / 3.0), "Overhead Platform") ]
  }

  /** The plan's two HVAC patches with their captions. */
  function PlanHvac(d: DimensionSet, c: LayoutContext): seq<Shape> {
    [ OfficeHvacPatch(d, c),
      Label(Point(c.hvacX + d.hvacW / 2.0, c.hvacY + d.hvacProjOffice / 2.0), "HVAC (outlet)"),
      GarageHvacPatch(d, c),
      Label(Point(c.hvacX + d.hvacW / 2.0, -d.hvacProjGarage / 2.0), "HVAC (condenser)") ]
  }

  /** The new wall and the two dimension arrows with their captions. */
  function PlanFrame(d: DimensionSet): seq<Shape> {
    [ Box(Point(0.0, 0.0), d.roomW, d.wallThk),
      Label(Point(d.platformW / 2.0, d.wallThk / 2.0), "New Wall"),
      WidthArrow(d),
      Label(Point(d.roomW / 2.0, -10.0), "width"),
      DepthArrow(d),
      Label(Point(-10.0, d.roomD / 2.0), "depth") ]
  }

  /** The top-down plan, primitive by primitive in drawing order. */
  function PlanScene(d: DimensionSet): Scene {
    var c := Layout(d);
    Scene([RoomOutline(d.roomW, d.roomD)] + PlanDoorAndWindow(d, c) + PlanFurniture(d, c)
            + PlanHvac(d, c) + PlanFrame(d),
          PlanView(d))
  }

  /** The plan's primitives include the room outline, the door strokes, the
      furniture and HVAC patches and the two dimension arrows, and its
      viewport is the room with 20 to spare on every side. */
  lemma PlanSceneContents(d: DimensionSet)
    ensures var sc := PlanScene(d); var c := Layout(d);
      && sc.view == Viewport(-20.0, d.roomW + 20.0, -20.0, d.roomD + 20.0)
      && RoomOutline(d.roomW, d.roomD) in sc.shapes
      && OpeningStroke(c) in sc.shapes && PocketStroke(c) in sc.shapes
      && DeskPatch(d, c) in sc.shapes && BookshelfPatch(d, c) in sc.shapes
      && OfficeHvacPatch(d, c) in sc.shapes && GarageHvacPatch(d, c) in sc.shapes
      && WidthArrow(d) in sc.shapes && DepthArrow(d) in sc.shapes
  {
  }

  /** The plan viewport holds the room outline, both dimension arrows at -8
      and their captions at -10, for any room of non-negative size. */
  lemma PlanViewHoldsFrame(d: DimensionSet)
    requires d.roomW >= 0.0 && d.roomD >= 0.0
    ensures ShapeIn(RoomOutline(d.roomW, d.roomD), PlanScene(d).view)
    ensures AllIn(PlanFrame(d)[2..], PlanScene(d).view)
  {
  }

  /** The garage-side HVAC patch fits in the plan viewport exactly when it
      projects at most 20 into the garage and does not start left of -20. */
  lemma PlanViewHoldsGarageHvac(d: DimensionSet)
    requires Positive(d)
    ensures var c := Layout(d);
      var inside := ShapeIn(GarageHvacPatch(d, c), PlanScene(d).view);
      inside <==> d.hvacProjGarage <= 20.0 && c.hvacX >= -20.0
  {
  }

  /** The desk, bookshelf and both HVAC captions sit at the centre of their
      patches. */
  lemma PlanLabelsCentred(d: DimensionSet)
    ensures var c := Layout(d);
      && PlanFurniture(d, c)[1] == Label(BoxCentre(DeskPatch(d, c)), "Desk")
      && PlanFurniture(d, c)[3] == Label(BoxCentre(BookshelfPatch(d, c)), "Bookshelf")
      && PlanHvac(d, c)[1] == Label(BoxCentre(OfficeHvacPatch(d, c)), "HVAC (outlet)")
      && PlanHvac(d, c)[3] == Label(BoxCentre(GarageHvacPatch(d, c)), "HVAC (condenser)")
  {
  }

  // ---- front elevation ----

  function ElevationView(d: DimensionSet): Viewport {
    Viewport(-10.0, d.roomW + 10.0, 0.0, d.roomH + 10.0)
  }

  function DoorPanel(d: DimensionSet, c: LayoutContext): Shape {
    Box(Point(c.pdX0, 0.0), d.pocketClearW, d.pocketClearH)
  }

  function PocketPanel(d: DimensionSet, c: LayoutContext): Shape {
    Box(Point(c.pdX2, 0.0), d.pocketClearW, d.pocketClearH)
  }

  function GrillePatch(d: DimensionSet, c: LayoutContext): Shape {
    Box(Point(c.hvacX, c.hvacFaceZ), d.hvacW, d.hvacH)
  }

  function WindowPatch(d: DimensionSet, c: LayoutContext): Shape {
    Box(Point(c.winX, d.windowAff), d.windowW, d.windowH)
  }

  function BookshelfFace(d: DimensionSet, c: LayoutContext): Shape {
    Box(Point(c.bsX, 0.0), d.bookshelfW, d.bookshelfH)
  }

  /** The bookshelf caption of the elevation as the script places it: its
      height is taken from the plan's depth coordinate bs_y. */
  function BookshelfCaptionAsWritten(d: DimensionSet, c: LayoutContext): Shape {
    Label(Point(c.bsX + d.bookshelfW / 2.0, c.bsY + d.bookshelfH / 2.0), "Bookshelf")
  }

  /** The bookshelf caption as the other elevation captions are placed: at
      the middle of the bookshelf's face. */
  function BookshelfCaption(d: DimensionSet, c: LayoutContext): Shape {
    Label(Point(c.bsX + d.bookshelfW / 2.0, d.bookshelfH / 2.0), "Bookshelf")
  }

  /** The front elevation, primitive by primitive in drawing order, with the
      bookshelf caption where the script puts it. */
  function ElevationScene(d: DimensionSet): Scene {
    var c := Layout(d);
    var grille := GrillePatch(d, c);
    Scene([
      RoomOutline(d.roomW, d.roomH),
      DoorPanel(d, c),
      PocketPanel(d, c),
      Label(Point(c.pdX0 + d.pocketClearW / 2.0, d.pocketClearH + 2.0), "Pocket Door"),
      Box(Point(c.deskX, d.deskH), d.deskW, 1.2),
      Label(Point(c.deskX + d.deskW / 2.0, d.deskH + 3.0), "Desk height"),
      grille,
      Label(Point(c.hvacX + d.hvacW / 2.0, c.hvacFaceZ + d.hvacH / 2.0), "HVAC grille"),
      Box(Point(c.platX, c.platZ), d.platformW, d.studW),
      Label(Point(c.platX + d.platformW / 2.0, c.platZ + d.studW * 1.5), "Overhead platform"),
      Segment(Point(0.0, d.eyeH), Point(d.roomW, d.eyeH)),
      Label(Point(d.roomW - 5.0, d.eyeH), "eye line"),
      WindowPatch(d, c),
      Label(Point(c.winX + d.windowW / 2.0, d.windowAff + d.windowH + 2.0), "Faux Window"),
      BookshelfFace(d, c),
      BookshelfCaptionAsWritten(d, c)
    ], ElevationView(d))
  }

  /** The front elevation with the bookshelf caption on the shelf's face. */
  function CorrectedElevationScene(d: DimensionSet): Scene {
    var sc := ElevationScene(d);
    Scene(sc.shapes[..15] + [BookshelfCaption(d, Layout(d))], sc.view)
  }

  /** The corrected elevation draws the same primitives in the same order and
      only moves the last one, the bookshelf caption, onto the shelf. */
  lemma CorrectedElevationOnlyMovesCaption(d: DimensionSet)
    ensures var sc := ElevationScene(d); var fixed := CorrectedElevationScene(d);
      && |fixed.shapes| == |sc.shapes| == 16 && fixed.view == sc.view
      && fixed.shapes[..15] == sc.shapes[..15]
      && sc.shapes[15] == BookshelfCaptionAsWritten(d, Layout(d))
      && fixed.shapes[15] == BookshelfCaption(d, Layout(d))
      && fixed.shapes[15].at.x == sc.shapes[15].at.x
  {
  }

  /** The elevation viewport holds the room outline, for any room of
      non-negative size. */
  lemma ElevationViewHoldsRoom(d: DimensionSet)
    requires d.roomW >= 0.0 && d.roomH >= 0.0
    ensures ElevationScene(d).shapes[0] == RoomOutline(d.roomW, d.roomH)
    ensures ShapeIn(RoomOutline(d.roomW, d.roomH), ElevationScene(d).view)
  {
  }

  /** In the elevation the door panel fills the opening exactly, while the
      dashed pocket panel is only the clear width wide and stops `offset`
      short of the opening. */
  lemma ElevationDoorPanels(d: DimensionSet)
    ensures var c := Layout(d);
      && DoorPanel(d, c).origin.x == Opening(c).lo && FarCorner(DoorPanel(d, c)).x == Opening(c).hi
      && PocketPanel(d, c).origin.x == Pocket(c).lo
      && FarCorner(PocketPanel(d, c)).x + d.pocketOffsetFromRight == Opening(c).lo
  {
  }

  /** The grille's top edge is half a grille height below the desk top. */
  lemma GrilleBelowDesk(d: DimensionSet)
    requires d.hvacH > 0.0
    ensures var g := GrillePatch(d, Layout(d));
      && FarCorner(g).y + d.hvacH / 2.0 == d.deskH
      && FarCorner(g).y < d.deskH
  {
  }

  /** With the shipped values, the window's top edge is 24 below the ceiling
      and the window is centred. */
  lemma DefaultWindowPlacement()
    ensures var d := Defaults(); var w := WindowPatch(d, Layout(d));
      && w.origin == Point(24.0, 36.0)
      && FarCorner(w).y + 24.0 == d.roomH
      && w.origin.x + d.windowW / 2.0 == d.roomW / 2.0
  {
  }

  /** Whenever the sill is derived from the wall and window heights as the
      script derives it, the window's top edge is 24 below the ceiling and the
      window is centred on the wall. */
  lemma WindowTopBelowCeiling(d: DimensionSet)
    requires SillFromRoom(d)
    ensures var w := WindowPatch(d, Layout(d));
      && FarCorner(w).y + 24.0 == d.roomH
      && w.origin.x + d.windowW / 2.0 == d.roomW / 2.0
  {
  }

  /** The bookshelf caption as written leaves the bookshelf with the shipped
      values: it lands at height 114, above the shelf's top at 108 (and above
      the ceiling). It is centred on the shelf only when the shelf is as deep
      as the room. */
  lemma BookshelfCaptionAsWrittenMisplaced()
    ensures var d := Defaults(); var c := Layout(d);
      && BookshelfCaptionAsWritten(d, c).at.y == 114.0
      && FarCorner(BookshelfFace(d, c)).y == 108.0
      && !ShapeIn(BookshelfCaptionAsWritten(d, c), Viewport(c.bsX, c.bsX + d.bookshelfW, 0.0, d.bookshelfH))
    ensures forall d: DimensionSet ::
      var centred := BookshelfCaptionAsWritten(d, Layout(d)).at == BoxCentre(BookshelfFace(d, Layout(d)));
      centred <==> d.roomD == d.bookshelfD
  {
  }

  /** The corrected bookshelf caption sits at the centre of the bookshelf's
      face for every dimension set. */
  lemma BookshelfCaptionCentred(d: DimensionSet)
    ensures var c := Layout(d);
      BookshelfCaption(d, c).at == BoxCentre(BookshelfFace(d, c))
    ensures var c := Layout(d);
      var onShelf := ShapeIn(BookshelfCaption(d, c), Viewport(c.bsX, c.bsX + d.bookshelfW, 0.0, d.bookshelfH));
      d.bookshelfH > 0.0 ==> (onShelf <==> d.bookshelfW >= 0.0)
  {
  }

  /** With the shipped values every primitive of the plan lies inside its
      viewport. */
  lemma DefaultPlanFits()
    ensures Fits(PlanScene(Defaults()))
  {
    var d := Defaults();
    var c := Layout(d);
    var v := PlanView(d);
    DefaultLayout();
    assert AllIn([RoomOutline(d.roomW, d.roomD)], v);
    assert AllIn(PlanDoorAndWindow(d, c), v);
    assert AllIn(PlanFurniture(d, c), v);
    assert AllIn(PlanHvac(d, c), v);
    assert AllIn(PlanFrame(d), v);
    AllInConcat([RoomOutline(d.roomW, d.roomD)], PlanDoorAndWindow(d, c), v);
    AllInConcat([RoomOutline(d.roomW, d.roomD)] + PlanDoorAndWindow(d, c), PlanFurniture(d, c), v);
    AllInConcat([RoomOutline(d.roomW, d.roomD)] + PlanDoorAndWindow(d, c) + PlanFurniture(d, c),
                PlanHvac(d, c), v);
    AllInConcat([RoomOutline(d.roomW, d.roomD)] + PlanDoorAndWindow(d, c) + PlanFurniture(d, c)
                  + PlanHvac(d, c), PlanFrame(d), v);
  }

  /** With the shipped values every primitive of the elevation lies inside
      its viewport, the misplaced bookshelf caption at height 114 included. */
  lemma DefaultElevationFits()
    ensures Fits(ElevationScene(Defaults()))
  {
    DefaultLayout();
  }

  /** So does every primitive of the corrected elevation. */
  lemma DefaultCorrectedElevationFits()
    ensures Fits(CorrectedElevationScene(Defaults()))
  {
    var d := Defaults();
    var sc := ElevationScene(d);
    DefaultElevationFits();
    DefaultLayout();
    assert AllIn(sc.shapes[..15], sc.view);
    assert AllIn([BookshelfCaption(d, Layout(d))], sc.view);
    AllInConcat(sc.shapes[..15], [BookshelfCaption(d, Layout(d))], sc.view);
  }
}
