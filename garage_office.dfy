/** The garage-office layout deriver: a set of named dimensions (inches) is
    turned into the derived coordinates shared by the top-down plan and the
    front elevation, and then into the primitives of those two views. */
module GarageOffice {
  import opened Plane

  /** The module constants of the drawing script, as one immutable value. */
  datatype DimensionSet = DimensionSet(
    studD: real, studW: real,
    eyeH: real,
    roomW: real, roomD: real, roomH: real,
    wallThk: real,
    pocketClearW: real, pocketClearH: real, pocketOffsetFromRight: real,
    windowW: real, windowH: real, windowAff: real,
    deskW: real, deskD: real, deskH: real,
    hvacW: real, hvacH: real, hvacProjOffice: real, hvacProjGarage: real,
    bookshelfW: real, bookshelfD: real, bookshelfH: real,
    platformW: real, platformD: real, platformH: real)

  /** The derived coordinates. pdX0..pdX1 is the visible door opening and
      pdX2..pdX0 the concealed pocket, both at depth pdY in the new wall. */
  datatype LayoutContext = LayoutContext(
    pdX0: real, pdX1: real, pdX2: real, pdY: real,
    winX: real,
    deskX: real, deskY: real,
    bsX: real, bsY: real,
    platX: real, platStudX: real,
    hvacX: real, hvacY: real,
    platZ: real,
    hvacFaceZ: real)

  /** The default window sill: the window top sits 24 below the ceiling. */
  function DefaultWindowAff(roomH: real, windowH: real): (aff: real)
    ensures aff + windowH + 24.0 == roomH
    ensures windowH < roomH - 24.0 ==> aff > 0.0
  {
    roomH - 24.0 - windowH
  }

  /** The values the script ships with. The pocket door's offset from the
      right corner is one stud depth. */
  function Defaults(): (d: DimensionSet)
    ensures d.pocketOffsetFromRight == d.studD
    ensures d.windowAff + d.windowH + 24.0 == d.roomH
    ensures SillFromRoom(d)
  {
    var studD := 1.5;
    DimensionSet(
      studD, 3.5,
      60.0,
      108.0, 72.0, 108.0,
      4.25,
      30.0, 80.0, studD,
      60.0, 48.0, DefaultWindowAff(108.0, 48.0),
      78.0, 30.0, 30.0,
      20.0, 14.0, 8.0, 14.0,
      36.0, 12.0, 108.0,
      24.0, 72.0, 76.0)
  }

  /** The sill is the one the script derives from the wall and window
      heights. The record keeps it as a field of its own, so a dimension set
      with another wall or window height must recompute it to agree. */
  predicate SillFromRoom(d: DimensionSet) {
    d.windowAff == DefaultWindowAff(d.roomH, d.windowH)
  }

  /** Every dimension is positive. The script never checks this; it is only
      a hypothesis of some of the lemmas below. */
  predicate Positive(d: DimensionSet) {
    && d.studD > 0.0 && d.studW > 0.0 && d.eyeH > 0.0
    && d.roomW > 0.0 && d.roomD > 0.0 && d.roomH > 0.0
    && d.wallThk > 0.0
    && d.pocketClearW > 0.0 && d.pocketClearH > 0.0 && d.pocketOffsetFromRight > 0.0
    && d.windowW > 0.0 && d.windowH > 0.0 && d.windowAff > 0.0
    && d.deskW > 0.0 && d.deskD > 0.0 && d.deskH > 0.0
    && d.hvacW > 0.0 && d.hvacH > 0.0 && d.hvacProjOffice > 0.0 && d.hvacProjGarage > 0.0
    && d.bookshelfW > 0.0 && d.bookshelfD > 0.0 && d.bookshelfH > 0.0
    && d.platformW > 0.0 && d.platformD > 0.0 && d.platformH > 0.0
  }

  /** layout_context: straight-line arithmetic over the dimensions. Each
      clause below is one placement rule of the room. */
  function Layout(d: DimensionSet): (c: LayoutContext)
    // the visible opening is the clear width, ending `offset` short of the right wall
    ensures c.pdX1 - c.pdX0 == d.pocketClearW
    ensures c.pdX1 + d.pocketOffsetFromRight == d.roomW
    // the pocket ends where the opening begins and is clear width plus offset wide
    ensures c.pdX0 - c.pdX2 == d.pocketClearW + d.pocketOffsetFromRight
    // the door runs along the middle of the new wall
    ensures 2.0 * c.pdY == d.wallThk
    // the window is centred on the room width
    ensures c.winX + d.windowW / 2.0 == d.roomW / 2.0
    // the desk is flush with the wall's interior face, at the left wall
    ensures c.deskX == 0.0 && c.deskY == d.wallThk
    // the bookshelf is flush with the far right corner
    ensures c.bsX + d.bookshelfW == d.roomW && c.bsY + d.bookshelfD == d.roomD
    // the platform's outer stud sits one stud pair inside the platform width
    ensures c.platX == 0.0 && c.platStudX + 2.0 * d.studD == d.platformW
    // the HVAC unit ends one stud depth left of the pocket
    ensures c.hvacX + d.hvacW + d.studD == c.pdX2 && c.hvacY == 0.0
    // the platform deck sits a joist above its nominal height
    ensures c.platZ == d.platformH + d.studW
    // the grille top is half a grille height below the desk top
    ensures c.hvacFaceZ + d.hvacH + d.hvacH / 2.0 == d.deskH
  {
    var pdX0 := d.roomW - d.pocketClearW - d.pocketOffsetFromRight;
    var pdX1 := d.roomW - d.pocketOffsetFromRight;
    var pdX2 := pdX0 - d.pocketClearW - d.pocketOffsetFromRight;
    var winX := (d.roomW - d.windowW) / 2.0;
    var platX := 0.0;
    LayoutContext(
      pdX0, pdX1, pdX2, d.wallThk / 2.0,
      winX,
      0.0, d.wallThk,
      d.roomW - d.bookshelfW, d.roomD - d.bookshelfD,
      platX, platX + (d.platformW - d.studD * 2.0),
      pdX2 - d.hvacW - d.studD, 0.0,
      d.platformH + d.studW,
      d.deskH - d.hvacH - d.hvacH / 2.0)
  }

  /** The visible door opening along the wall. */
  function Opening(c: LayoutContext): Span {
    Span(c.pdX0, c.pdX1)
  }

  /** The concealed pocket the door panel slides into. */
  function Pocket(c: LayoutContext): Span {
    Span(c.pdX2, c.pdX0)
  }

  /** The width the HVAC unit occupies along the wall. */
  function HvacRun(d: DimensionSet, c: LayoutContext): Span {
    Span(c.hvacX, c.hvacX + d.hvacW)
  }

  /** The pocket and the opening are contiguous: the pocket ends exactly where
      the opening begins, and they never overlap. */
  lemma PocketAbutsOpening(d: DimensionSet)
    requires d.pocketClearW > 0.0 && d.pocketOffsetFromRight >= 0.0
    ensures var c := Layout(d);
      && Pocket(c).lo <= Pocket(c).hi == Opening(c).lo <= Opening(c).hi
      && Opening(c).hi - Opening(c).lo == d.pocketClearW
      && Pocket(c).hi - Pocket(c).lo == d.pocketClearW + d.pocketOffsetFromRight
      && !InteriorsOverlap(Pocket(c), Opening(c))
  {
  }

  /** The pocket stays inside the room exactly when the room is at least twice
      the clear width plus offset wide; then the opening is inside too. The
      script does not check this condition. */
  lemma PocketInsideRoomIff(d: DimensionSet)
    requires d.pocketClearW > 0.0 && d.pocketOffsetFromRight >= 0.0
    ensures var c := Layout(d);
      && (c.pdX2 >= 0.0 <==> d.roomW >= 2.0 * d.pocketClearW + 2.0 * d.pocketOffsetFromRight)
      && (c.pdX2 >= 0.0 <==>
            SpanWithin(Pocket(c), Span(0.0, d.roomW)) && SpanWithin(Opening(c), Span(0.0, d.roomW)))
  {
  }

  /** With a stud of positive depth between them, the HVAC unit and the pocket
      are disjoint: the unit ends strictly before the pocket begins. */
  lemma HvacClearOfPocket(d: DimensionSet)
    requires d.studD > 0.0
    ensures var c := Layout(d);
      && HvacRun(d, c).hi + d.studD == Pocket(c).lo
      && HvacRun(d, c).hi < Pocket(c).lo
      && !InteriorsOverlap(HvacRun(d, c), Pocket(c))
  {
  }

  /** The shipped values: opening 76.5..106.5, pocket 45..76.5, window at 24
      with sill 36, HVAC at 23.5, platform deck at 79.5, grille at 9. */
  lemma DefaultLayout()
    ensures Layout(Defaults()) == LayoutContext(
      76.5, 106.5, 45.0, 2.125,
      24.0,
      0.0, 4.25,
      72.0, 60.0,
      0.0, 21.0,
      23.5, 0.0,
      79.5,
      9.0)
    ensures Defaults().windowAff == 36.0
  {
  }
}
