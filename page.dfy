/**
 * The dashboard page: it owns the committed time range, the completed
 * polygons and the data sources, and wires the slider, the map and the
 * sidebar to them through their callbacks.
 */
module Page {

  import opened Common
  import opened Geometry
  import opened Types
  import opened Classification
  import opened Timeline
  import opened MapCanvas
  import opened Sources

  /** The range the page starts with: the first 24 hours. */
  const InitialRange := Range(0.0, 24.0)

  /** `prev.filter(p => p.id !== polygonId)`. */
  function RemoveId(ps: seq<Polygon>, id: int): (r: seq<Polygon>)
    ensures |r| <= |ps|
    ensures forall p :: p in r <==> p in ps && p.id != id
  {
    if ps == [] then []
    else if ps[0].id != id then [ps[0]] + RemoveId(ps[1..], id)
    else RemoveId(ps[1..], id)
  }

  /** Deleting works piecewise, so the polygons that stay keep their order. */
  lemma {:induction false} RemoveIdDistributes(a: seq<Polygon>, b: seq<Polygon>, id: int)
    ensures RemoveId(a + b, id) == RemoveId(a, id) + RemoveId(b, id)
  {
    if a != [] {
      assert (a + b)[1..] == a[1..] + b;
      RemoveIdDistributes(a[1..], b, id);
    } else {
      assert a + b == b;
    }
  }

  /** Deleting an id no polygon carries changes nothing. */
  lemma {:induction false} RemoveIdAbsent(ps: seq<Polygon>, id: int)
    requires forall i :: 0 <= i < |ps| ==> ps[i].id != id
    ensures RemoveId(ps, id) == ps
  {
    if ps != [] {
      RemoveIdAbsent(ps[1..], id);
      assert [ps[0]] + ps[1..] == ps;
    }
  }

  /** Deleting a polygon right after creating it, with an id not used before, restores the list. */
  lemma DeleteUndoesCreate(ps: seq<Polygon>, p: Polygon)
    requires forall i :: 0 <= i < |ps| ==> ps[i].id != p.id
    ensures RemoveId(ps + [p], p.id) == ps
  {
    RemoveIdDistributes(ps, [p], p.id);
    RemoveIdAbsent(ps, p.id);
    assert RemoveId([p], p.id) == RemoveId([p][1..], p.id);
  }

  /** Deleting twice is deleting once. */
  lemma RemoveIdIdempotent(ps: seq<Polygon>, id: int)
    ensures RemoveId(RemoveId(ps, id), id) == RemoveId(ps, id)
  {
    var r := RemoveId(ps, id);
    forall i | 0 <= i < |r| ensures r[i].id != id {
      assert r[i] in r;
    }
    RemoveIdAbsent(r, id);
  }

  /**
   * The regeneration effect: each polygon gets fresh samples for `hours`
   * hours (request `i` of the pass for polygon `i`) and keeps everything else.
   */
  function Regenerate(ps: seq<Polygon>, hours: nat, feed: Feed): (r: seq<Polygon>)
    ensures |r| == |ps|
    ensures forall i :: 0 <= i < |ps| ==>
              r[i].id == ps[i].id && r[i].points == ps[i].points &&
              r[i].dataSource == ps[i].dataSource && r[i].weatherData == feed(i, hours)
    ensures Honest(feed) ==> forall i :: 0 <= i < |r| ==> |r[i].weatherData| == hours
  {
    seq(|ps|, i requires 0 <= i < |ps| => ps[i].(weatherData := feed(i, hours)))
  }

  /** What every stored polygon satisfies: 3 to 11 points, and one sample per hour of the range. */
  predicate WellFormed(p: Polygon, timeRange: Range) {
    MinPoints <= |p.points| < MaxPoints && |p.weatherData| == SampleCount(timeRange)
  }

  class Dashboard {
    var timeRange: Range
    var polygons: seq<Polygon>
    var selectedDataSource: Option<DataSource>
    var dataSources: seq<DataSource>

    /** The range obeys the slider's invariant and every polygon is well formed for it. */
    ghost predicate Valid()
      reads this
    {
      ValidRange(timeRange, DefaultMax) &&
      forall i :: 0 <= i < |polygons| ==> WellFormed(polygons[i], timeRange)
    }

    constructor ()
      ensures Valid()
      ensures timeRange == InitialRange && polygons == [] && selectedDataSource == None
      ensures dataSources == [OpenMeteo]
    {
      timeRange := InitialRange;
      polygons := [];
      selectedDataSource := None;
      dataSources := [OpenMeteo];
    }

    /** The effect that selects the first source while none is selected. */
    method SelectInitialDataSource()
      modifies this
      ensures selectedDataSource ==
                if |dataSources| > 0 && old(selectedDataSource).None? then Some(dataSources[0])
                else old(selectedDataSource)
      ensures timeRange == old(timeRange) && polygons == old(polygons) && dataSources == old(dataSources)
    {
      if |dataSources| > 0 && selectedDataSource.None? {
        selectedDataSource := Some(dataSources[0]);
      }
    }

    /** `onDataSourceChange`. */
    method SetSelectedDataSource(source: DataSource)
      modifies this
      ensures selectedDataSource == Some(source)
      ensures timeRange == old(timeRange) && polygons == old(polygons) && dataSources == old(dataSources)
    {
      selectedDataSource := Some(source);
    }

    method HandleDataSourceAdd(source: DataSource)
      modifies this
      ensures dataSources == old(dataSources) + [source]
      ensures timeRange == old(timeRange) && polygons == old(polygons)
      ensures selectedDataSource == old(selectedDataSource)
    {
      dataSources := dataSources + [source];
    }

    /** New polygons go at the end of the list. */
    method HandlePolygonCreate(polygon: Polygon)
      modifies this
      ensures polygons == old(polygons) + [polygon]
      ensures timeRange == old(timeRange) && dataSources == old(dataSources)
      ensures selectedDataSource == old(selectedDataSource)
    {
      polygons := polygons + [polygon];
    }

    /** Removes every polygon with that id; the rest keep their order. */
    method HandlePolygonDelete(polygonId: int)
      modifies this
      ensures polygons == RemoveId(old(polygons), polygonId)
      ensures timeRange == old(timeRange) && dataSources == old(dataSources)
      ensures selectedDataSource == old(selectedDataSource)
      ensures old(Valid()) ==> Valid()
    {
      polygons := RemoveId(polygons, polygonId);
      forall i | 0 <= i < |polygons| ensures polygons[i] in old(polygons) {
        assert polygons[i] in polygons;
      }
    }

    /** `setTimeRange`, followed by the effect that regenerates every polygon's samples. */
    method SetTimeRange(range: Range, feed: Feed)
      modifies this
      ensures timeRange == range
      ensures polygons == Regenerate(old(polygons), SampleCount(range), feed)
      ensures dataSources == old(dataSources) && selectedDataSource == old(selectedDataSource)
    {
      timeRange := range;
      polygons := Regenerate(polygons, SampleCount(timeRange), feed);
    }

    /**
     * A pointer move while the slider may be dragging: the slider's
     * `onChange` commits the new range, which regenerates all samples.
     */
    method OnSliderMove(slider: TimelineSlider, clientX: real, left: real, width: real, feed: Feed)
      returns (change: Option<Range>)
      requires Valid() && Honest(feed)
      requires slider.max == DefaultMax && width > 0.0
      modifies this
      ensures Valid()
      ensures change == MoveChange(slider.isDragging, slider.activeHandle, old(timeRange),
                                   PointerFraction(clientX, left, width), DefaultMax)
      ensures timeRange == (if change.Some? then change.value else old(timeRange))
      ensures change.Some? ==> polygons == Regenerate(old(polygons), SampleCount(timeRange), feed)
      ensures change.None? ==> polygons == old(polygons)
      ensures dataSources == old(dataSources) && selectedDataSource == old(selectedDataSource)
    {
      change := slider.HandleMouseMove(timeRange, clientX, left, width);
      if change.Some? {
        SetTimeRange(change.value, feed);
      }
    }

    /** A click on the map; a polygon it completes is appended. */
    method OnMapClick(canvas: InteractiveMap, client: Point, corner: Point, now: int, feed: Feed)
      returns (created: Option<Polygon>)
      requires Valid() && canvas.Valid() && Honest(feed)
      modifies this, canvas
      ensures Valid() && canvas.Valid()
      ensures Outcome(canvas.State(), created) ==
                ClickStep(old(canvas.State()), client, corner, Props(old(selectedDataSource), old(timeRange)), now, feed)
      ensures polygons == old(polygons) + (if created.Some? then [created.value] else [])
      ensures timeRange == old(timeRange) && selectedDataSource == old(selectedDataSource)
      ensures dataSources == old(dataSources)
    {
      ghost var before := canvas.State();
      created := canvas.HandleCanvasClick(client, corner, Props(selectedDataSource, timeRange), now, feed);
      CreatedPolygonSize(before, client, corner, Props(selectedDataSource, timeRange), now, feed);
      if created.Some? {
        HandlePolygonCreate(created.value);
      }
    }

    /** A double-click on the map; a polygon it completes is appended. */
    method OnMapDoubleClick(canvas: InteractiveMap, now: int, feed: Feed)
      returns (created: Option<Polygon>)
      requires Valid() && canvas.Valid() && Honest(feed)
      modifies this, canvas
      ensures Valid() && canvas.Valid()
      ensures Outcome(canvas.State(), created) ==
                DoubleClickStep(old(canvas.State()), Props(old(selectedDataSource), old(timeRange)), now, feed)
      ensures polygons == old(polygons) + (if created.Some? then [created.value] else [])
      ensures timeRange == old(timeRange) && selectedDataSource == old(selectedDataSource)
      ensures dataSources == old(dataSources)
    {
      ghost var before := canvas.State();
      created := canvas.HandleCanvasDoubleClick(Props(selectedDataSource, timeRange), now, feed);
      CreatedPolygonSize(before, Origin, Origin, Props(selectedDataSource, timeRange), now, feed);
      if created.Some? {
        HandlePolygonCreate(created.value);
      }
    }

    /** The sidebar's Add Source button; an accepted source is appended to the list. */
    method OnAddSource(sidebar: DataSourceSidebar, now: int) returns (added: Option<DataSource>)
      modifies this, sidebar
      ensures added == NewDataSource(old(sidebar.newSourceName), old(sidebar.newSourceField), now)
      ensures dataSources == old(dataSources) + (if added.Some? then [added.value] else [])
      ensures timeRange == old(timeRange) && polygons == old(polygons)
      ensures selectedDataSource == old(selectedDataSource)
      ensures sidebar.newSourceName == (if added.Some? then "" else old(sidebar.newSourceName))
      ensures sidebar.newSourceField == old(sidebar.newSourceField)
    {
      added := sidebar.AddDataSource(now);
      if added.Some? {
        HandleDataSourceAdd(added.value);
      }
    }
  }

}
