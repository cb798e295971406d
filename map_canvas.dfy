/**
 * The interactive map: drawing a polygon by clicks, finishing it by a
 * double-click or by the twelfth click, and panning the canvas by
 * dragging. `MapState` and the `...Step` functions give each handler's
 * effect on the component's state; the class `InteractiveMap` holds that
 * state in fields and its handlers are proved to follow the steps.
 */
module MapCanvas {

  import opened Common
  import opened Geometry
  import opened Types
  import opened Timeline

  /** A click that brings the in-progress list to this many points finishes the polygon. */
  const MaxPoints := 12
  /** Fewest points a completed polygon needs. */
  const MinPoints := 3
  /** The label of a polygon drawn while no source (or a source with an empty name) is selected. */
  const FallbackLabel := "Open-Meteo"

  /**
   * The sample collaborator: `feed(k, hours)` is the answer to the `k`-th
   * request of one pass, for `hours` hourly samples. The values are not
   * modelled; `Honest` is its contract.
   */
  type Feed = (nat, nat) -> seq<real>

  ghost predicate Honest(feed: Feed) {
    forall k: nat, hours: nat :: |feed(k, hours)| == hours
  }

  /** The props the map reads: the selected source and the page's committed range. */
  datatype Props = Props(selectedDataSource: Option<DataSource>, timeRange: Range)

  /** `selectedDataSource?.name || 'Open-Meteo'`: an empty name is falsy too. */
  function SourceLabel(selected: Option<DataSource>): (tag: string)
    ensures tag != ""
    ensures selected.Some? && selected.value.name != "" ==> tag == selected.value.name
    ensures selected.None? || selected.value.name == "" ==> tag == FallbackLabel
  {
    if selected.Some? && selected.value.name != "" then selected.value.name else FallbackLabel
  }

  /** The polygon `completePolygon` builds: id from the clock, samples for the range's hours. */
  function NewPolygon(points: seq<Point>, props: Props, now: int, feed: Feed): (p: Polygon)
    ensures p.id == now && p.points == points && p.dataSource == SourceLabel(props.selectedDataSource)
    ensures Honest(feed) ==> |p.weatherData| == SampleCount(props.timeRange)
  {
    Polygon(now, points, SourceLabel(props.selectedDataSource), feed(0, SampleCount(props.timeRange)))
  }

  datatype MapState = MapState(
    isDrawing: bool,
    currentPolygon: seq<Point>,
    mapOffset: Point,
    isDragging: bool,
    dragStart: Point)

  const InitialState := MapState(false, [], Origin, false, Origin)

  /** The in-progress list never keeps twelve points. */
  predicate ValidState(s: MapState) {
    |s.currentPolygon| < MaxPoints
  }

  /** A handler's new state and the polygon it passed to `onPolygonCreate`, if any. */
  datatype Outcome = Outcome(state: MapState, created: Option<Polygon>)

  /**
   * `completePolygon`, given the list it reads (`rendered`, the list as of
   * the last render): it emits a polygon iff that list has at least three
   * points, and always clears the list and leaves draw mode.
   */
  function CompleteStep(s: MapState, rendered: seq<Point>, props: Props, now: int, feed: Feed): (o: Outcome)
    ensures o.created.Some? <==> |rendered| >= MinPoints
    ensures o.created.Some? ==> o.created.value == NewPolygon(rendered, props, now, feed)
    ensures o.state == s.(currentPolygon := [], isDrawing := false)
  {
    var created := if |rendered| >= MinPoints then Some(NewPolygon(rendered, props, now, feed)) else None;
    Outcome(s.(currentPolygon := [], isDrawing := false), created)
  }

  /**
   * A click on the canvas. Ignored while panning or outside draw mode;
   * otherwise the canvas-local point is appended, and when that makes
   * twelve points the polygon is completed from the list as it was BEFORE
   * this click (the handler's `completePolygon` reads the list captured at
   * render time), so the twelfth point itself is dropped.
   */
  function ClickStep(s: MapState, client: Point, corner: Point, props: Props, now: int, feed: Feed): (o: Outcome)
    ensures s.isDragging || !s.isDrawing ==> o == Outcome(s, None)
    ensures !s.isDragging && s.isDrawing && |s.currentPolygon| + 1 < MaxPoints ==>
              o.created == None &&
              o.state == s.(currentPolygon := s.currentPolygon + [ToCanvasLocal(client, corner, s.mapOffset)])
    ensures !s.isDragging && s.isDrawing && |s.currentPolygon| + 1 >= MaxPoints ==>
              o == CompleteStep(s, s.currentPolygon, props, now, feed)
    ensures ValidState(s) ==> ValidState(o.state)
  {
    if s.isDragging || !s.isDrawing then Outcome(s, None)
    else
      var p := ToCanvasLocal(client, corner, s.mapOffset);
      var newPolygon := s.currentPolygon + [p];
      if |newPolygon| >= MaxPoints then
        CompleteStep(s.(currentPolygon := newPolygon), s.currentPolygon, props, now, feed)
      else
        Outcome(s.(currentPolygon := newPolygon), None)
  }

  /**
   * A double-click completes the polygon when the list has at least three
   * points and otherwise changes nothing. It does not look at draw mode.
   */
  function DoubleClickStep(s: MapState, props: Props, now: int, feed: Feed): (o: Outcome)
    ensures |s.currentPolygon| < MinPoints ==> o == Outcome(s, None)
    ensures |s.currentPolygon| >= MinPoints ==>
              o.created == Some(NewPolygon(s.currentPolygon, props, now, feed)) &&
              o.state == s.(currentPolygon := [], isDrawing := false)
  {
    if |s.currentPolygon| >= MinPoints then CompleteStep(s, s.currentPolygon, props, now, feed)
    else Outcome(s, None)
  }

  /** Pressing the mouse outside draw mode starts a pan anchored at the pointer less the offset. */
  function MouseDownStep(s: MapState, client: Point): (t: MapState)
    ensures s.isDrawing ==> t == s
    ensures !s.isDrawing ==> t.isDragging && Add(t.dragStart, s.mapOffset) == client
    ensures t.(isDragging := s.isDragging, dragStart := s.dragStart) == s
  {
    if !s.isDrawing then s.(isDragging := true, dragStart := Sub(client, s.mapOffset)) else s
  }

  /** Moving while panning puts the offset at the pointer less the anchor; nothing is clamped. */
  function MouseMoveStep(s: MapState, client: Point): (t: MapState)
    ensures !s.isDragging ==> t == s
    ensures s.isDragging ==> Add(s.dragStart, t.mapOffset) == client
    ensures t.(mapOffset := s.mapOffset) == s
  {
    if s.isDragging then s.(mapOffset := Sub(client, s.dragStart)) else s
  }

  function MouseUpStep(s: MapState): (t: MapState)
    ensures !t.isDragging && t.(isDragging := s.isDragging) == s
  {
    s.(isDragging := false)
  }

  /** The draw button only flips draw mode: the vertices drawn so far are kept. */
  function ToggleStep(s: MapState): (t: MapState)
    ensures t.isDrawing != s.isDrawing && t.currentPolygon == s.currentPolygon
    ensures t.(isDrawing := s.isDrawing) == s
  {
    s.(isDrawing := !s.isDrawing)
  }

  /** Reset View puts the offset back at the origin and touches nothing else. */
  function ResetStep(s: MapState): (t: MapState)
    ensures t.mapOffset == Origin && t.(mapOffset := s.mapOffset) == s
  {
    s.(mapOffset := Origin)
  }

  /** Every polygon the map emits has between three and eleven points. */
  lemma CreatedPolygonSize(s: MapState, client: Point, corner: Point, props: Props, now: int, feed: Feed)
    requires ValidState(s)
    ensures var o := ClickStep(s, client, corner, props, now, feed);
            o.created.Some? ==> MinPoints <= |o.created.value.points| < MaxPoints
    ensures var o := DoubleClickStep(s, props, now, feed);
            o.created.Some? ==> MinPoints <= |o.created.value.points| < MaxPoints
  {
  }

  /**
   * The twelfth click completes the polygon from the eleven points before
   * it: the clicked point is not among the polygon's vertices' count.
   */
  lemma TwelfthClickDropsItsPoint(s: MapState, client: Point, corner: Point, props: Props, now: int, feed: Feed)
    requires !s.isDragging && s.isDrawing && |s.currentPolygon| == MaxPoints - 1
    ensures var o := ClickStep(s, client, corner, props, now, feed);
            o.created == Some(NewPolygon(s.currentPolygon, props, now, feed)) &&
            |o.created.value.points| == MaxPoints - 1 &&
            o.state.currentPolygon == [] && !o.state.isDrawing
  {
  }

  /** The canvas-local point of each click, at a fixed pan offset. */
  function Locals(clients: seq<Point>, corner: Point, offset: Point): (r: seq<Point>)
    ensures |r| == |clients|
  {
    seq(|clients|, i requires 0 <= i < |clients| => ToCanvasLocal(clients[i], corner, offset))
  }

  /** A run of clicks, with the polygons emitted along the way in order. */
  function Clicks(s: MapState, clients: seq<Point>, corner: Point, props: Props, now: int, feed: Feed)
    : (MapState, seq<Polygon>)
    decreases |clients|
  {
    if clients == [] then (s, [])
    else
      var (t, made) := Clicks(s, clients[..|clients| - 1], corner, props, now, feed);
      var o := ClickStep(t, clients[|clients| - 1], corner, props, now, feed);
      (o.state, if o.created.Some? then made + [o.created.value] else made)
  }

  /** Up to eleven clicks from a fresh drawing session only collect points, each where it was clicked. */
  lemma {:induction false} ClicksCollectPoints(s: MapState, clients: seq<Point>, corner: Point, props: Props, now: int, feed: Feed)
    requires s.isDrawing && !s.isDragging && s.currentPolygon == []
    requires |clients| < MaxPoints
    ensures Clicks(s, clients, corner, props, now, feed) ==
              (s.(currentPolygon := Locals(clients, corner, s.mapOffset)), [])
    decreases |clients|
  {
    if clients != [] {
      var front := clients[..|clients| - 1];
      ClicksCollectPoints(s, front, corner, props, now, feed);
      var t := s.(currentPolygon := Locals(front, corner, s.mapOffset));
      var o := ClickStep(t, clients[|clients| - 1], corner, props, now, feed);
      assert Locals(front, corner, s.mapOffset) + [ToCanvasLocal(clients[|clients| - 1], corner, s.mapOffset)]
          == Locals(clients, corner, s.mapOffset);
      assert o == Outcome(s.(currentPolygon := Locals(clients, corner, s.mapOffset)), None);
    } else {
      assert Locals(clients, corner, s.mapOffset) == [];
    }
  }

  /**
   * Twelve clicks from a fresh drawing session emit exactly one polygon,
   * on the twelfth click, built from the first eleven points; the session
   * then ends.
   */
  lemma TwelveClicks(s: MapState, clients: seq<Point>, corner: Point, props: Props, now: int, feed: Feed)
    requires s.isDrawing && !s.isDragging && s.currentPolygon == []
    requires |clients| == MaxPoints
    ensures var (t, made) := Clicks(s, clients, corner, props, now, feed);
            made == [NewPolygon(Locals(clients[..MaxPoints - 1], corner, s.mapOffset), props, now, feed)] &&
            t == s.(isDrawing := false)
  {
    ClicksCollectPoints(s, clients[..MaxPoints - 1], corner, props, now, feed);
  }

  /**
   * Three clicks then a double-click emit one polygon whose vertices are
   * the three clicked points, in order.
   */
  lemma ThreeClicksThenDoubleClick(s: MapState, clients: seq<Point>, corner: Point, props: Props, now: int, feed: Feed)
    requires s.isDrawing && !s.isDragging && s.currentPolygon == []
    requires |clients| == 3
    ensures var (t, made) := Clicks(s, clients, corner, props, now, feed);
            made == [] &&
            DoubleClickStep(t, props, now, feed) ==
              Outcome(s.(isDrawing := false), Some(NewPolygon(Locals(clients, corner, s.mapOffset), props, now, feed)))
  {
    ClicksCollectPoints(s, clients, corner, props, now, feed);
  }

  /**
   * A double-click does not look at draw mode: stopping draw mode with
   * three or more vertices and then double-clicking still emits them.
   */
  lemma DoubleClickCompletesAfterStop(s: MapState, props: Props, now: int, feed: Feed)
    requires s.isDrawing && |s.currentPolygon| >= MinPoints
    ensures var o := DoubleClickStep(ToggleStep(s), props, now, feed);
            o.created == Some(NewPolygon(s.currentPolygon, props, now, feed)) &&
            !o.state.isDrawing && o.state.currentPolygon == []
  {
  }

  /** A pan gesture: a press at `down`, then moves through `moves`. */
  function Pan(s: MapState, down: Point, moves: seq<Point>): MapState
    decreases |moves|
  {
    if moves == [] then MouseDownStep(s, down)
    else MouseMoveStep(Pan(s, down, moves[..|moves| - 1]), moves[|moves| - 1])
  }

  /**
   * Panning outside draw mode moves the offset by exactly the pointer's
   * displacement since the press, however many moves it took, and changes
   * nothing but the offset and the drag state.
   */
  lemma {:induction false} PanFollowsPointer(s: MapState, down: Point, moves: seq<Point>)
    requires !s.isDrawing && moves != []
    ensures Pan(s, down, moves).mapOffset == Add(s.mapOffset, Sub(moves[|moves| - 1], down))
    ensures Pan(s, down, moves).isDragging
    ensures Pan(s, down, moves).(mapOffset := s.mapOffset, isDragging := s.isDragging, dragStart := s.dragStart) == s
    decreases |moves|
  {
    var t := Pan(s, down, moves[..|moves| - 1]);
    if |moves| > 1 {
      PanFollowsPointer(s, down, moves[..|moves| - 1]);
    }
    assert t.isDragging && t.dragStart == Sub(down, s.mapOffset);
  }

  /** While in draw mode a press never starts a pan, so clicks are not swallowed. */
  lemma DrawingBlocksPan(s: MapState, down: Point, moves: seq<Point>)
    requires s.isDrawing && !s.isDragging
    ensures Pan(s, down, moves) == s
    decreases |moves|
  {
    if moves != [] {
      DrawingBlocksPan(s, down, moves[..|moves| - 1]);
    }
  }

  /**
   * Stopping draw mode, panning, and starting again resumes the same
   * in-progress polygon: neither the toggle nor the pan touches it.
   */
  lemma {:induction false} PanBetweenTogglesKeepsVertices(s: MapState, down: Point, moves: seq<Point>)
    requires s.isDrawing && !s.isDragging
    ensures var t := ToggleStep(Pan(ToggleStep(s), down, moves));
            t.isDrawing && t.currentPolygon == s.currentPolygon
  {
    if moves != [] {
      PanFollowsPointer(ToggleStep(s), down, moves);
    }
  }

  /**
   * A pan whose mouse-up happened outside the canvas is never ended. If
   * draw mode is then switched on, moves still pan the map with the button
   * up. A click event with no mouse-up before it is rejected, but a real
   * click (press, release, click on the canvas) ends the pan through its
   * own mouse-up and adds its vertex.
   */
  lemma StuckPanOverridesDrawMode(s: MapState, client: Point, corner: Point, props: Props, now: int, feed: Feed)
    requires !s.isDrawing && s.isDragging
    ensures var t := ToggleStep(s);
            t.isDrawing &&
            Add(s.dragStart, MouseMoveStep(t, client).mapOffset) == client &&
            ClickStep(t, client, corner, props, now, feed) == Outcome(t, None)
    ensures |s.currentPolygon| + 1 < MaxPoints ==>
              ClickStep(MouseUpStep(MouseDownStep(ToggleStep(s), client)), client, corner, props, now, feed).state.currentPolygon ==
              s.currentPolygon + [ToCanvasLocal(client, corner, s.mapOffset)]
  {
  }

  class InteractiveMap {
    var isDrawing: bool
    var currentPolygon: seq<Point>
    var mapOffset: Point
    var isDragging: bool
    var dragStart: Point

    function State(): MapState
      reads this
    {
      MapState(isDrawing, currentPolygon, mapOffset, isDragging, dragStart)
    }

    predicate Valid()
      reads this
    {
      ValidState(State())
    }

    constructor ()
      ensures State() == InitialState && Valid()
    {
      isDrawing := false;
      currentPolygon := [];
      mapOffset := Origin;
      isDragging := false;
      dragStart := Origin;
    }

    /** The Draw Polygon / Stop Drawing button. */
    method ToggleDrawing()
      requires Valid()
      modifies this
      ensures Valid() && State() == ToggleStep(old(State()))
    {
      isDrawing := !isDrawing;
    }

    /** The Reset View button. */
    method ResetView()
      requires Valid()
      modifies this
      ensures Valid() && State() == ResetStep(old(State()))
    {
      mapOffset := Origin;
    }

    /** `completePolygon`, reading `rendered` as the in-progress list. */
    method CompletePolygon(rendered: seq<Point>, props: Props, now: int, feed: Feed)
      returns (created: Option<Polygon>)
      modifies this
      ensures Valid()
      ensures Outcome(State(), created) == CompleteStep(old(State()), rendered, props, now, feed)
    {
      created := None;
      if |rendered| >= MinPoints {
        var newPolygon := Polygon(now, rendered, SourceLabel(props.selectedDataSource),
                                  feed(0, SampleCount(props.timeRange)));
        created := Some(newPolygon);
      }
      currentPolygon := [];
      isDrawing := false;
    }

    /** A click at `client` on a canvas whose top-left corner is at `corner`. */
    method HandleCanvasClick(client: Point, corner: Point, props: Props, now: int, feed: Feed)
      returns (created: Option<Polygon>)
      requires Valid()
      modifies this
      ensures Valid()
      ensures Outcome(State(), created) == ClickStep(old(State()), client, corner, props, now, feed)
    {
      if isDragging || !isDrawing {
        return None;
      }
      var x := client.x - corner.x - mapOffset.x;
      var y := client.y - corner.y - mapOffset.y;
      var rendered := currentPolygon;
      var newPolygon := currentPolygon + [Point(x, y)];
      currentPolygon := newPolygon;
      created := None;
      if |newPolygon| >= MaxPoints {
        created := CompletePolygon(rendered, props, now, feed);
      }
    }

    method HandleCanvasDoubleClick(props: Props, now: int, feed: Feed)
      returns (created: Option<Polygon>)
      requires Valid()
      modifies this
      ensures Valid()
      ensures Outcome(State(), created) == DoubleClickStep(old(State()), props, now, feed)
    {
      created := None;
      if |currentPolygon| >= MinPoints {
        created := CompletePolygon(currentPolygon, props, now, feed);
      }
    }

    method HandleMouseDown(client: Point)
      requires Valid()
      modifies this
      ensures Valid() && State() == MouseDownStep(old(State()), client)
    {
      if !isDrawing {
        isDragging := true;
        dragStart := Point(client.x - mapOffset.x, client.y - mapOffset.y);
      }
    }

    method HandleMouseMove(client: Point)
      requires Valid()
      modifies this
      ensures Valid() && State() == MouseMoveStep(old(State()), client)
    {
      if isDragging {
        mapOffset := Point(client.x - dragStart.x, client.y - dragStart.y);
      }
    }

    method HandleMouseUp()
      requires Valid()
      modifies this
      ensures Valid() && State() == MouseUpStep(old(State()))
    {
      isDragging := false;
    }
  }

}
