# Garage office and garden map geometry

This project models the geometry core of two drawing scripts.

- **Garage office** (`projects/garage-office/garage-office.py`). A fixed set of
  room dimensions in inches (`DimensionSet`, with the shipped values as
  `Defaults`) is turned by `layout_context` into derived coordinates
  (`LayoutContext`): the pocket door opening and its concealed pocket, the
  centred window, the desk, the bookshelf, the overhead platform and the
  window HVAC unit. Those coordinates feed two views, the top-down plan and
  the front elevation. Each view is modelled as a `Scene`: the list of
  primitives in drawing order (polylines, segments, rectangle patches,
  arrows and text anchors) plus the axis limits. The elevation keeps the
  bookshelf caption where the script puts it; `CorrectedElevationScene` is
  the same elevation with that caption moved onto the shelf (see Findings).
- **Garden map** (`projects/gardens/map_sections.py`). A section is a
  rectangle given by two corners, or a polygon given by its points.
  - Rectangles are normalised to four axis-aligned points.
  - Every section gets a caption at the average of its points.
  - Every plant gets a caption offset from its marker.
  - The map's axis limits are the extremes of all section points, widened
    by a margin of 5. `ComputeBounds` is the loop that collects them.

Coordinates are Dafny `real`s, so arithmetic is exact. The modules are:

- `Plane`: points, viewports, primitives and containment;
- `GarageOffice`: the dimensions and the layout;
- `GarageOfficeViews`: the plan and the elevation;
- `Gardens`: outlines, centres, captions, bounds and section loading.

The model does what the code does, including where a reader might expect
more:
- `layout_context` never rejects a pocket that extends past the left wall
  (`pd_x2 < 0`). `GarageOffice.PocketInsideRoomIff` states exactly when that
  happens.
- The window sill is the constant `ROOM_H - 24 - WINDOW_H`. Nothing in the
  code overrides it.
- Plant positions do not enter the map bounds. Only section points do.
- Any section kind other than `"rect"` is read as a polygon. There is no
  unknown-kind error and no check that a polygon has at least three points.

## Model

| member | source | states |
|---|---|---|
| GarageOffice.DefaultWindowAff | projects/garage-office/garage-office.py:40 | the sill height plus the window height plus 24 is the wall height; the sill is positive whenever the window fits below the 24 margin |
| GarageOffice.Defaults | projects/garage-office/garage-office.py:19-61 | the pocket door offset equals one stud depth, and the window top is 24 below the ceiling |
| GarageOffice.Layout | projects/garage-office/garage-office.py:64-88 | each placement rule: the opening is the clear width and ends `offset` short of the right wall; the pocket ends where the opening starts and is clear width plus offset wide; the door runs along the middle of the wall; the window is centred; the desk is at the left of the wall's inner face; the bookshelf is in the far right corner; the platform stud is one stud pair inside the platform width; the HVAC unit ends one stud depth before the pocket; the deck is a joist above the platform height; the grille top is half a grille below the desk top |
| GarageOffice.PocketAbutsOpening | projects/garage-office/garage-office.py:66-68 | the pocket and the opening are contiguous, have the stated widths and their interiors do not overlap |
| GarageOffice.PocketInsideRoomIff | projects/garage-office/garage-office.py:66-68 | the pocket starts at or right of the left wall exactly when the room is at least twice (clear width + offset) wide, and exactly when both pocket and opening lie within the room |
| GarageOffice.HvacClearOfPocket | projects/garage-office/garage-office.py:83 | the HVAC unit ends one stud depth before the pocket and so never overlaps it |
| GarageOffice.DefaultLayout | projects/garage-office/garage-office.py:64-88 | the shipped values give opening 76.5..106.5, pocket from 45, window at 24 with sill 36, HVAC at 23.5, deck at 79.5 and grille at 9 |
| GarageOfficeViews.PlanSceneContents | projects/garage-office/garage-office.py:96-134 | the plan shows the room, the opening and pocket strokes, desk, bookshelf, both HVAC patches and both dimension arrows, with the room plus 20 on every side as its limits |
| GarageOfficeViews.PlanViewHoldsFrame | projects/garage-office/garage-office.py:128-134 | for any room of non-negative size the outline, both arrows and their captions lie within the plan limits |
| GarageOfficeViews.PlanViewHoldsGarageHvac | projects/garage-office/garage-office.py:122-134 | the garage-side HVAC patch lies within the plan limits exactly when it projects at most 20 into the garage and starts at or right of -20 |
| GarageOfficeViews.PlanLabelsCentred | projects/garage-office/garage-office.py:106-123 | the desk, bookshelf and both HVAC captions sit at the centre of their patches |
| GarageOfficeViews.ElevationViewHoldsRoom | projects/garage-office/garage-office.py:145-179 | the elevation starts with the room outline, which lies within its limits for any room of non-negative size |
| GarageOfficeViews.ElevationDoorPanels | projects/garage-office/garage-office.py:147-148 | the door panel spans the opening exactly; the pocket panel starts at the pocket and stops `offset` short of the opening |
| GarageOfficeViews.GrilleBelowDesk | projects/garage-office/garage-office.py:155-159 | the grille's top edge is half a grille height below, hence strictly below, the desk top |
| GarageOfficeViews.WindowTopBelowCeiling | projects/garage-office/garage-office.py:40 | for any dimensions whose sill is derived as the script derives it, the window top is 24 below the ceiling and the window is centred |
| GarageOfficeViews.DefaultWindowPlacement | projects/garage-office/garage-office.py:170 | with the shipped values the window patch starts at (24, 36), is centred and its top is 24 below the ceiling |
| GarageOfficeViews.BookshelfCaptionAsWrittenMisplaced | projects/garage-office/garage-office.py:174-176 | the caption as written lands at height 114, above the 108 shelf top and outside the shelf face; for any dimensions it is centred only when the shelf is as deep as the room |
| GarageOfficeViews.BookshelfCaptionCentred | projects/garage-office/garage-office.py:174-176 | the corrected caption is at the centre of the shelf face, and on the face whenever the shelf has positive height and non-negative width |
| GarageOfficeViews.DefaultPlanFits | projects/garage-office/garage-office.py:96-134 | with the shipped values every primitive of the plan lies within its limits |
| GarageOfficeViews.DefaultElevationFits | projects/garage-office/garage-office.py:145-179 | with the shipped values every primitive of the elevation as drawn, the bookshelf caption at height 114 included, lies within its limits |
| GarageOfficeViews.CorrectedElevationOnlyMovesCaption | projects/garage-office/garage-office.py:145-179 | the corrected elevation has the same 16 primitives and limits, and differs only in the height of the last one, the bookshelf caption |
| GarageOfficeViews.DefaultCorrectedElevationFits | projects/garage-office/garage-office.py:145-179 | with the shipped values every primitive of the corrected elevation lies within its limits |
| Gardens.OutlineOf | projects/gardens/map_sections.py:31-46 | an entry without a kind fails with MissingKind; a "rect" entry succeeds exactly when it has four coordinates, taken in order; any other kind succeeds exactly when it has points, kept unchanged; a rectangle without `coords` fails with MissingCoords, one whose coordinates are not four with WrongCoordCount, and any other kind without `points` with MissingPoints |
| Gardens.RectPoints | projects/gardens/map_sections.py:31-40 | the result is the normalised rectangle: four axis-aligned points counter-clockwise from the low corner, whose x values are x1 and x2 and y values y1 and y2 |
| Gardens.NormalisedRectUnique | projects/gardens/map_sections.py:31-40 | only one point list is a normalised rectangle over given corners |
| Gardens.RectPointsOrderIndependent | projects/gardens/map_sections.py:33-34 | swapping the corners, or only their x or only their y values, gives the same points |
| Gardens.SectionPoints | projects/gardens/map_sections.py:43-46 | a rectangle outline yields its normalised rectangle; a polygon's points come back unchanged and in order |
| Gardens.RectPatchMatchesPoints | projects/gardens/map_sections.py:59-71 | the drawn patch starts at the first normalised point, ends at the third, and has non-negative size |
| Gardens.SeqMinIsLeast | projects/gardens/map_sections.py:140-143 | the minimum is an element and no element is smaller |
| Gardens.SeqMaxIsGreatest | projects/gardens/map_sections.py:140-143 | the maximum is an element and no element is larger |
| Gardens.AverageOfBounded | projects/gardens/map_sections.py:53 | the mean of a non-empty list lies between its minimum and maximum |
| Gardens.Centre | projects/gardens/map_sections.py:49-53 | the vertex average lies between the extreme x values and between the extreme y values |
| Gardens.RectCentreIsMidpoint | projects/gardens/map_sections.py:49-53 | the centre of a normalised rectangle is the midpoint of its two declared corners |
| Gardens.UnitStripExample | projects/gardens/map_sections.py:31-53 | the strip (0,0)-(1,20) normalises to its four corners and has centre (0.5, 10) |
| Gardens.LabelText | projects/gardens/map_sections.py:86-88 | the caption starts with the name; it is the name alone when there is no note, else the name, a newline and the note |
| Gardens.SectionLabel | projects/gardens/map_sections.py:84-97 | the section caption carries the label text, at the centre of its points moved by the offset, (0, 0) by default |
| Gardens.PlantLabel | projects/gardens/map_sections.py:104-128 | the plant caption carries the label text, at the plant moved by the offset, (0.4, 0.4) by default |
| Gardens.RectSectionLabelAtMidpoint | projects/gardens/map_sections.py:84-88 | without an offset, a rectangle section's caption is at the midpoint of its corners |
| Gardens.AllPointsCover | projects/gardens/map_sections.py:134-137 | every point of every section is among the collected points |
| Gardens.AllPointsFromSections | projects/gardens/map_sections.py:134-137 | every collected point is a point of some section |
| Gardens.BoundsOf | projects/gardens/map_sections.py:138-144 | there are no bounds exactly when there are no points (the values of the bounds are pinned down by `BoundsContainSections` and `BoundsTight`) |
| Gardens.BoundsContainSections | projects/gardens/map_sections.py:131-144 | every section point lies inside the bounds shrunk back by the margin |
| Gardens.ExtremesReached | projects/gardens/map_sections.py:134-143 | the extreme collected x and y values are reached by some section point |
| Gardens.BoundsTight | projects/gardens/map_sections.py:131-144 | each edge of the shrunk bounds is reached by a section point, and each side of the bounds is at least twice the margin |
| Gardens.ComputeBounds | projects/gardens/map_sections.py:131-144 | the loop over sections returns the margin-widened extremes of all section points, and no bounds when there are none |
| Gardens.LoadSections | projects/gardens/map_sections.py:219-222 | loading succeeds exactly when the sections key is present and non-empty, returning them unchanged; otherwise the error is "no sections" |
| Gardens.BoundsExistIff | projects/gardens/map_sections.py:131-144 | the map has bounds exactly when some section has at least one point |
| Gardens.LoadAcceptsPointlessSection | projects/gardens/map_sections.py:131-222 | the loader accepts a list holding one polygon without points, and that list has no bounds |

## Left out

- Rendering is not modelled: matplotlib, figure sizes, colours, line styles, fonts, alignment, titles, axis labels, grids, saving, showing and backends.
- The command line, file reading and YAML/JSON parsing are not modelled. `LoadSections` receives the already parsed `sections` value.
- `main` and `build_map` are not modelled beyond their parts: the drawing loop only calls the modelled caption and bounds functions.
- Caption texts are modelled as their fixed words only. The dimension strings formatted into them (for example `30"×80"`) are left out.
- Python's mix of int and float is not modelled. Arithmetic is exact over the reals, so rounding is left out.
- Gardens.ComputeBounds: the script raises ValueError from `min` of an empty list when there are no section points. The model returns None for that case.
- Gardens.Centre: requires a non-empty point list, because the script divides by zero on an empty polygon.
- Gardens.SectionLabel: requires a non-empty point list, for the same reason.
- Gardens.OutlineOf: only models the key and the unpacking errors. Unknown kinds, polygons with fewer than three points and non-numeric values are not checked by the script, so the model does not check them either.
- Gardens.Section, Gardens.Plant: a section's `name`, a plant's `name` and a plant's `position` are record fields the model always has. The script raises KeyError when one of them is missing from the file; only the geometry keys (`kind`, `coords`, `points`) have their missing case modelled.
- Section colours and the plant scatter marker's style are left out. A plant's position is kept, because its caption is placed from it.
- GarageOffice.Layout: the dimensions are one immutable value, not module globals, so editing a constant is modelled as passing a different `DimensionSet`.
- GarageOffice.DimensionSet: two constants the script derives when it loads are fields of their own. The sill `windowAff` comes from the wall and window heights, and the door offset `pocketOffsetFromRight` from the stud depth. A dimension set with another wall height, window height or stud depth must recompute them; `GarageOffice.SillFromRoom` states the sill's agreement and the lemmas about the window's top assume it, while the door lemmas hold for any offset.

## Findings

| source | as written | input that shows it | evidently intended | confidence | as-written member | corrected member |
|---|---|---|---|---|---|---|
| projects/garage-office/garage-office.py:175 | the elevation's bookshelf caption takes its height from the plan's depth coordinate `bs_y` plus half the shelf height | the shipped dimensions: `bs_y` = 60, so the caption is at height 114, above the 108 shelf top and the 108 ceiling | the caption at half the shelf height, centred on the shelf face like the other elevation captions | medium, not executed | GarageOfficeViews.BookshelfCaptionAsWrittenMisplaced | GarageOfficeViews.BookshelfCaptionCentred |
