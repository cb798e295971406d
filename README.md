# Weather dashboard: timeline slider, polygon map and colour rules

This project models the interactive core of a weather dashboard page
(`src/pages/index.tsx`) and proves properties of the model.

- **Timeline slider.** Two handles select a range `[start, end]` of hours over
  `[0, max]`, where `max` is 720 by default. Pressing a handle starts a drag.
  Each pointer move clamps the pointer's fraction of the track to `[0, 1]`.
  It then moves the held handle, but never closer than one hour to the other
  handle. Releasing the pointer ends the drag. The page owns the range; the
  slider reports each new range through `onChange`.
- **Interactive map.** In draw mode, clicks collect canvas-local vertices. A
  double-click on at least three vertices completes a polygon, and so does the
  click that brings the list to twelve. Outside draw mode, dragging pans the
  canvas, and Reset View puts the pan offset back at the origin.
- **Colour classification.** A polygon's fill is the colour of the first rule
  of the selected source that holds for the mean of its temperature samples.
  When no rule holds, no source is selected or the polygon has no samples, the
  fill is `#94a3b8`.
- **The page.** It appends created polygons and deletes them by id. On every
  change of the range it gives each polygon `round(end - start)` fresh samples.
  It also adds data sources and refuses a blank name.

Modules, one per file: `Common` (Option), `Geometry` (points, the
screen/canvas transform, sums, means, the centroid), `Types` (the records),
`Classification`, `Timeline` (slider), `MapCanvas` (drawing and panning),
`Sources` (the sidebar's Add Source form) and `Page` (the dashboard).

Stateful parts are classes whose fields match the component state, with one
method per event handler. `TimelineSlider`, `InteractiveMap`,
`DataSourceSidebar` and `Dashboard` are of that kind. Each map handler is
proved equal to a pure step function over `MapState`. The lemmas about runs
of events are stated on those functions.

Behaviour of the code that the model follows where it differs from what one
might expect of such a component:

- Toggling draw mode only flips the flag. The vertices collected so far are
  kept when drawing stops and are still there when it restarts.
- `completePolygon` reads the vertex list captured when the component last
  rendered. So the click that makes the list twelve long completes the
  polygon from the eleven earlier points, and the twelfth point is dropped.
  Every completed polygon therefore has 3 to 11 vertices
  (`MapCanvas.TwelfthClickDropsItsPoint`, `MapCanvas.TwelveClicks`).
- A double-click does not check draw mode. It completes any list of three or
  more points, also after draw mode was switched off
  (`MapCanvas.DoubleClickCompletesAfterStop`).
- The mouse-up that ends a pan is heard only on the canvas. A pan whose
  button is released outside the canvas stays in progress. If draw mode is
  then switched on, pointer moves still pan the map with the button up. The
  first click on the canvas ends the pan through its own mouse-up and is
  accepted; the `isDragging` guard of the click handler only rejects a click
  event that arrives without a mouse-up before it
  (`MapCanvas.StuckPanOverridesDrawMode`).
- A rule with operator `'='` never fires, because the loop has no branch for
  it.
- A polygon with no samples has a NaN average, no comparison holds for NaN,
  and so it gets the default colour. The model writes the NaN as `None`.
- The label of a new polygon is `selectedDataSource?.name || 'Open-Meteo'`.
  An empty source name therefore also falls back to `Open-Meteo`.
- Samples are regenerated on every change of the range, that is on every
  slider move during a drag, and not only when the drag ends.
- Pressing a slider handle is not gated on an active drag. It always takes
  the handle.
- Polygon ids are the clock (`Date.now()`) and need not be unique. Delete
  removes every polygon that carries the id.

## Model

| member | source | states |
|---|---|---|
| `Geometry.ToCanvasLocal` | src/pages/index.tsx:311-313 | the stored vertex, drawn back with the same pan offset, is drawn at canvas coordinate `client - corner` (the bounding-box corner; the canvas's 2px border is not modelled) |
| `Geometry.CanvasLocalOfScreen` | src/pages/index.tsx:256-258 | the converse: the screen position where a vertex is drawn, taken back to canvas-local coordinates, is that vertex |
| `Geometry.SumIsReduce` | src/pages/index.tsx:211 | the total defined from the front equals the left-to-right fold that `reduce` performs from 0 (used here and for the centroid, lines 273-274) |
| `Geometry.ReduceFromStart` | src/pages/index.tsx:211 | a fold from any start value is the fold from zero plus that start |
| `Geometry.Mean` | src/pages/index.tsx:211 | sum over count; a list whose values are all equal has that value as its mean |
| `Geometry.Centroid` | src/pages/index.tsx:272-275 | the mean of the vertices' x and y; a polygon whose vertices all coincide has its label on that point |
| `Geometry.MeanBounds` | src/pages/index.tsx:211 | the mean of a non-empty list lies between any lower and upper bound of its values |
| `Geometry.CentroidTranslate` | src/pages/index.tsx:272-280 | the label drawn at centroid plus pan offset is at the centroid of the polygon as drawn on screen |
| `Geometry.CentroidInBox` | src/pages/index.tsx:272-275 | the centroid lies inside every axis-aligned box that holds all vertices |
| `Classification.AverageTemperature` | src/pages/index.tsx:211 | the average is undefined (NaN) exactly for an empty sample list, and otherwise is the mean |
| `Classification.Holds` | src/pages/index.tsx:214-217 | a NaN average and an `'='` rule never fire; otherwise a rule fires iff the average is on the side its operator names, and exactly at the threshold only `<=` and `>=` fire |
| `Classification.Classify` | src/pages/index.tsx:213-219 | returns the colour of the first rule that fires, and the default colour when no rule fires |
| `Classification.MatchOrNoMatch` | src/pages/index.tsx:213-219 | every rule list has either a first firing rule or none at all, so the two cases of `Classify` cover every input |
| `Classification.PolygonColor` | src/pages/index.tsx:207-220 | the default colour when no source is selected or there are no samples; otherwise the first-match colour for the mean temperature |
| `Classification.GetPolygonColor` | src/pages/index.tsx:207-220 | the early-return loop over the rules computes exactly `PolygonColor` |
| `Classification.EqualRulesAreInert` | src/pages/index.tsx:213-218 | removing every `'='` rule never changes the colour, even when the average equals its threshold |
| `Classification.BuiltInRulesNeverRed` | src/pages/index.tsx:644-648 | with the built-in rules an average below 10 is blue and any other is amber; red (`>= 25`) is never chosen |
| `Classification.FirstRuleWinsOnOverlap` | src/pages/index.tsx:213-218 | worked example: at an average of exactly 10, a `>= 10` rule and a `<= 10` rule both fire, and whichever is listed first decides (the general fact is `Classification.Classify`'s first-match contract) |
| `Timeline.JsRound` | src/pages/index.tsx:335 | `Math.round` gives an integer within half a unit of its argument |
| `Timeline.SampleCount` | src/pages/index.tsx:42 | a range asks for `round(end - start)` samples, and for none when that is negative |
| `Timeline.SampleCountOfValidRange` | src/pages/index.tsx:663 | a valid range asks for at least one sample, within half an hour of its width |
| `Timeline.PointerFraction` | src/pages/index.tsx:111 | the fraction is in `[0, 1]`, exact inside the track, 0 left of it and 1 right of it |
| `Timeline.DragTo` | src/pages/index.tsx:112-119 | the start handle goes to `min(fraction*max, end-1)` and the end handle to `max(fraction*max, start+1)`; the other handle stays put |
| `Timeline.DragKeepsRangeValid` | src/pages/index.tsx:111-119 | after any drag, `0 <= start`, `start + 1 <= end` and `end <= max` still hold |
| `Timeline.DragClampsAtGap` | src/pages/index.tsx:115-119 | the handle follows the pointer unless that would close the one-hour gap, in which case it stops exactly at the gap |
| `Timeline.MoveChange` | src/pages/index.tsx:107-120 | a move reports a range exactly when dragging with a handle held, and that range is the dragged one |
| `Timeline.TimelineSlider.constructor` | src/pages/index.tsx:96-98 | the slider starts idle, with no handle held, over the given domain |
| `Timeline.TimelineSlider.HandleMouseDown` | src/pages/index.tsx:101-105 | pressing a handle starts a drag of that handle |
| `Timeline.TimelineSlider.HandleMouseMove` | src/pages/index.tsx:107-120 | reports `MoveChange` for the clamped fraction, leaves the other handle where it was, and never turns a valid range into an invalid one |
| `Timeline.TimelineSlider.HandleMouseUp` | src/pages/index.tsx:122-125 | releasing clears both the drag flag and the held handle |
| `Timeline.RunKeepsRangeValid` | src/pages/index.tsx:101-125 | every range reached by any sequence of presses, clamped moves and releases is valid |
| `Timeline.MovesAfterReleaseAreInert` | src/pages/index.tsx:107-125 | after a release, any number of moves leave the state unchanged |
| `MapCanvas.SourceLabel` | src/pages/index.tsx:334 | the label is never empty: the selected source's name if it has one, otherwise `Open-Meteo` |
| `MapCanvas.NewPolygon` | src/pages/index.tsx:331-336 | a new polygon takes the clock as id, the given points, the source label, and one sample per hour of the range |
| `MapCanvas.CompleteStep` | src/pages/index.tsx:329-341 | completion emits a polygon iff the list it reads has at least three points, and always clears the list and leaves draw mode |
| `MapCanvas.ClickStep` | src/pages/index.tsx:308-321 | ignored while panning or outside draw mode; otherwise it appends the canvas-local point; a click that reaches twelve points completes from the pre-click list; the list never keeps twelve points |
| `MapCanvas.DoubleClickStep` | src/pages/index.tsx:323-327 | with fewer than three points nothing changes; otherwise exactly one polygon with the current points is emitted and the session ends |
| `MapCanvas.MouseDownStep` | src/pages/index.tsx:343-348 | outside draw mode a press starts a pan with anchor `client - offset`; in draw mode it does nothing; no other field changes |
| `MapCanvas.MouseMoveStep` | src/pages/index.tsx:350-357 | while panning, the offset becomes `client - anchor` with no clamping; otherwise nothing changes |
| `MapCanvas.MouseUpStep` | src/pages/index.tsx:359-361 | a release stops the pan and changes nothing else |
| `MapCanvas.ToggleStep` | src/pages/index.tsx:372 | toggling flips draw mode and keeps the vertices and every other field |
| `MapCanvas.ResetStep` | src/pages/index.tsx:381 | reset sets the offset to the origin and touches nothing else |
| `MapCanvas.CreatedPolygonSize` | src/pages/index.tsx:315-340 | every polygon emitted by a click or a double-click has 3 to 11 points |
| `MapCanvas.TwelfthClickDropsItsPoint` | src/pages/index.tsx:315-333 | the twelfth click emits the polygon of the eleven earlier points, clears the list and leaves draw mode |
| `MapCanvas.ClicksCollectPoints` | src/pages/index.tsx:308-320 | up to eleven clicks in a fresh session emit nothing and collect each clicked point, in order |
| `MapCanvas.TwelveClicks` | src/pages/index.tsx:315-340 | twelve clicks in a fresh session emit exactly one polygon, made of the first eleven points, and end the session |
| `MapCanvas.ThreeClicksThenDoubleClick` | src/pages/index.tsx:308-341 | three clicks then a double-click emit one polygon whose vertices are the three clicked points |
| `MapCanvas.DoubleClickCompletesAfterStop` | src/pages/index.tsx:323-327 | switching draw mode off with three or more vertices and then double-clicking still emits a polygon of exactly those vertices and clears the list |
| `MapCanvas.PanFollowsPointer` | src/pages/index.tsx:343-357 | over a whole pan gesture the offset moves by exactly the pointer's displacement since the press, and nothing else but the drag state changes |
| `MapCanvas.DrawingBlocksPan` | src/pages/index.tsx:343-357 | in draw mode, with no pan in progress, a press and the moves after it never pan |
| `MapCanvas.PanBetweenTogglesKeepsVertices` | src/pages/index.tsx:343-372 | stopping draw mode, panning, and starting again resumes the same in-progress polygon |
| `MapCanvas.StuckPanOverridesDrawMode` | src/pages/index.tsx:350-361 | a pan left in progress (mouse released off the canvas) keeps panning after draw mode is switched on; a click event without a mouse-up before it is rejected, while a real click (press, release, click on the canvas) ends the pan and adds its vertex |
| `MapCanvas.InteractiveMap.constructor` | src/pages/index.tsx:198-202 | the map starts out of draw mode with no vertices, a zero offset and no pan |
| `MapCanvas.InteractiveMap.ToggleDrawing` | src/pages/index.tsx:372 | follows `ToggleStep` |
| `MapCanvas.InteractiveMap.ResetView` | src/pages/index.tsx:381 | follows `ResetStep` |
| `MapCanvas.InteractiveMap.CompletePolygon` | src/pages/index.tsx:329-341 | follows `CompleteStep` for the list it is given |
| `MapCanvas.InteractiveMap.HandleCanvasClick` | src/pages/index.tsx:308-321 | follows `ClickStep`, passing the list as it was before the click to completion, and keeps fewer than twelve vertices |
| `MapCanvas.InteractiveMap.HandleCanvasDoubleClick` | src/pages/index.tsx:323-327 | follows `DoubleClickStep` |
| `MapCanvas.InteractiveMap.HandleMouseDown` | src/pages/index.tsx:343-348 | follows `MouseDownStep` |
| `MapCanvas.InteractiveMap.HandleMouseMove` | src/pages/index.tsx:350-357 | follows `MouseMoveStep` |
| `MapCanvas.InteractiveMap.HandleMouseUp` | src/pages/index.tsx:359-361 | follows `MouseUpStep` |
| `Sources.TrimStart` | src/pages/index.tsx:426 | removes exactly the leading white space: the result is a suffix, everything dropped is white space, and it does not start with white space |
| `Sources.TrimEnd` | src/pages/index.tsx:426 | removes exactly the trailing white space, symmetrically |
| `Sources.IsWhitespace` | src/pages/index.tsx:426 | space, tab and newline are white space; no visible ASCII character is |
| `Sources.Trim` | src/pages/index.tsx:426 | the result is the window of the name that starts after its leading white space; everything before and after it is white space, and it neither starts nor ends with white space |
| `Sources.TrimEmptyIffBlank` | src/pages/index.tsx:426 | a name trims to the empty string iff every character is white space |
| `Sources.NewDataSource` | src/pages/index.tsx:425-437 | a blank name is refused; any other name gives a source with that untrimmed name, the chosen field, the clock as id and the built-in rules |
| `Sources.DataSourceSidebar.constructor` | src/pages/index.tsx:422-423 | the form starts with an empty name and the temperature field |
| `Sources.DataSourceSidebar.SetNewSourceName` | src/pages/index.tsx:500 | typing sets the name and keeps the field |
| `Sources.DataSourceSidebar.SetNewSourceField` | src/pages/index.tsx:505 | choosing sets the field and keeps the name |
| `Sources.DataSourceSidebar.AddDataSource` | src/pages/index.tsx:425-441 | returns `NewDataSource` of the form; clears the name only when a source was added |
| `Page.RemoveId` | src/pages/index.tsx:671-673 | a polygon survives a delete iff it was there and carries another id; the list never grows |
| `Page.RemoveIdDistributes` | src/pages/index.tsx:672 | delete works piecewise over concatenation, so the survivors keep their relative order |
| `Page.RemoveIdAbsent` | src/pages/index.tsx:672 | deleting an id that no polygon carries changes nothing |
| `Page.DeleteUndoesCreate` | src/pages/index.tsx:667-673 | creating a polygon with an unused id and then deleting that id restores the list |
| `Page.RemoveIdIdempotent` | src/pages/index.tsx:672 | deleting the same id twice is the same as deleting it once |
| `Page.Regenerate` | src/pages/index.tsx:660-665 | keeps the count, order, ids, points and labels of every polygon and replaces each sample list with a fresh one of the requested length |
| `Page.Dashboard.constructor` | src/pages/index.tsx:636-650 | the page starts with range `[0, 24]`, no polygons, no selection and the Open-Meteo source, and its invariant holds |
| `Page.Dashboard.SelectInitialDataSource` | src/pages/index.tsx:653-657 | while nothing is selected and a source exists, the first source becomes selected |
| `Page.Dashboard.SetSelectedDataSource` | src/pages/index.tsx:718 | selecting a source changes only the selection |
| `Page.Dashboard.HandleDataSourceAdd` | src/pages/index.tsx:675-677 | a new source is appended and nothing else changes |
| `Page.Dashboard.HandlePolygonCreate` | src/pages/index.tsx:667-669 | a created polygon is appended at the end and nothing else changes |
| `Page.Dashboard.HandlePolygonDelete` | src/pages/index.tsx:671-673 | the polygons become `RemoveId` of the old ones, and the page invariant is kept |
| `Page.Dashboard.SetTimeRange` | src/pages/index.tsx:660-665 | committing a range regenerates every polygon's samples for its hour count |
| `Page.Dashboard.OnSliderMove` | src/pages/index.tsx:693-697 | a slider move commits the dragged range, if any, and regenerates; the range stays valid and every polygon keeps one sample per hour of it |
| `Page.Dashboard.OnMapClick` | src/pages/index.tsx:704-710 | a map click follows `ClickStep`, appends the polygon it completes, and keeps every stored polygon at 3 to 11 points with one sample per hour |
| `Page.Dashboard.OnMapDoubleClick` | src/pages/index.tsx:704-710 | the same for a double-click |
| `Page.Dashboard.OnAddSource` | src/pages/index.tsx:715-720 | Add Source appends the accepted source, if any, and touches neither the range nor the polygons |

## Left out

- The sample values. `generateWeatherData` draws them from `Math.random`, `Math.sin` and the clock. The model takes the generator as a parameter `feed`. `feed(k, hours)` is the `k`-th request of one pass, and the model assumes it returns exactly `hours` values (`Honest`). Each sample keeps only its temperature; the `hour` index and the timestamp string are dropped.
- Ids come from `Date.now()`. The model takes them as a parameter `now`.
- Floating point. Coordinates, handle positions and temperatures are exact reals. NaN appears only as the empty-samples average, written `None`. Infinity and rounding error are not modelled.
- Timeline.TimelineSlider.HandleMouseMove and Timeline.PointerFraction: require a positive track width. On a zero-width track the division gives `+Infinity` right of the left edge and `-Infinity` left of it, which the clamp turns into 1 and 0; only a pointer exactly on the left edge gives `0/0 = NaN`, which then reaches the range. The model has no value for NaN or infinity. A handle can only be pressed on a visible track, so a drag never runs over zero width.
- Canvas rendering in `drawMap`. Fills, strokes, fonts, alpha and the grid's `offset % 50` are not modelled. Only the vertex and centroid placement is modelled (`Geometry`).
- `formatHour`, the `toFixed` display arithmetic of the polygon list and the statistics panel, and all JSX markup.
- React mechanics. The model leaves out when state updates take effect, the `useEffect` listener attach and detach, and the null checks on `sliderRef` and `canvasRef`. Each handler is modelled as one step that runs to completion. The browser's event ordering is not modelled (for example, that a double-click follows two clicks).
- A source's `field` is stored but never read: classification always averages the temperature, as the code does.
- src/hooks/useWeatherData.ts (a network client), src/components/layout/Header.tsx, src/pages/_app.tsx, next.config.js and src/lib/types/index.ts (declarations only) are not part of this model.
