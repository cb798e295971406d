/**
 * The two-handle timeline slider. The selected range `[start, end]` is a
 * value the page owns and hands to the slider; the slider owns only its
 * drag state and reports each new range through `onChange`.
 */
module Timeline {

  import opened Common

  /** The slider's default domain, `[0, 720]` hours (30 days). */
  const DefaultMax: real := 720.0

  /** The handle indices 0 and 1. */
  datatype Handle = StartHandle | EndHandle

  datatype Range = Range(start: real, end: real)

  /** Both handles inside the domain and at least one hour apart. */
  predicate ValidRange(r: Range, max: real) {
    0.0 <= r.start && r.start + 1.0 <= r.end <= max
  }

  function Min(a: real, b: real): (m: real)
    ensures m <= a && m <= b && (m == a || m == b)
  {
    if a <= b then a else b
  }

  function Max(a: real, b: real): (m: real)
    ensures m >= a && m >= b && (m == a || m == b)
  {
    if a >= b then a else b
  }

  /**
   * `Math.round`: the nearest integer, halves rounded up. Defined for the
   * finite values the model works with.
   */
  function JsRound(x: real): (n: int)
    ensures x - 0.5 < n as real <= x + 0.5
  {
    (x + 0.5).Floor
  }

  /**
   * How many hourly samples a range asks for: `Math.round(end - start)`,
   * and none when that is negative (the generator's loop does not run).
   */
  function SampleCount(r: Range): (n: nat)
    ensures JsRound(r.end - r.start) >= 0 ==> n == JsRound(r.end - r.start)
    ensures JsRound(r.end - r.start) < 0 ==> n == 0
  {
    var hours := JsRound(r.end - r.start);
    if hours < 0 then 0 else hours
  }

  /** A valid range asks for at least one sample, and for its width to within half an hour. */
  lemma SampleCountOfValidRange(r: Range, max: real)
    requires ValidRange(r, max)
    ensures 1 <= SampleCount(r)
    ensures r.end - r.start - 0.5 < SampleCount(r) as real <= r.end - r.start + 0.5
  {
  }

  /** The pointer's position along the track as a fraction, clamped to `[0, 1]`. */
  function PointerFraction(clientX: real, left: real, width: real): (f: real)
    requires width > 0.0
    ensures 0.0 <= f <= 1.0
    ensures left <= clientX <= left + width ==> f * width == clientX - left
    ensures clientX <= left ==> f == 0.0
    ensures clientX >= left + width ==> f == 1.0
  {
    var raw := (clientX - left) / width;
    assert raw * width == clientX - left;
    Max(0.0, Min(1.0, raw))
  }

  /**
   * The range after dragging `handle` to `fraction` of the track: the
   * start handle stops one hour below the end, the end handle one hour
   * above the start, and the other handle stays where it was.
   */
  function DragTo(value: Range, handle: Handle, fraction: real, max: real): (r: Range)
    ensures handle == StartHandle ==>
              r.end == value.end && r.start == Min(fraction * max, value.end - 1.0)
    ensures handle == EndHandle ==>
              r.start == value.start && r.end == Max(fraction * max, value.start + 1.0)
  {
    var newValue := fraction * max;
    match handle
    case StartHandle => Range(Min(newValue, value.end - 1.0), value.end)
    case EndHandle => Range(value.start, Max(newValue, value.start + 1.0))
  }

  lemma ScaledFractionInDomain(fraction: real, max: real)
    requires 0.0 <= fraction <= 1.0 && 0.0 <= max
    ensures 0.0 <= fraction * max <= max
  {
    assert fraction * max <= 1.0 * max;
  }

  /**
   * The slider's invariant: a drag to any fraction of the track keeps both
   * handles in `[0, max]` and at least one hour apart.
   */
  lemma DragKeepsRangeValid(value: Range, handle: Handle, fraction: real, max: real)
    requires ValidRange(value, max)
    requires 0.0 <= fraction <= 1.0
    ensures ValidRange(DragTo(value, handle, fraction, max), max)
  {
    ScaledFractionInDomain(fraction, max);
    ClampedDragValid(value, handle, fraction * max, max, DragTo(value, handle, fraction, max));
  }

  /** The clamping step on its own, for any target position `v` inside the domain. */
  lemma ClampedDragValid(value: Range, handle: Handle, v: real, max: real, r: Range)
    requires ValidRange(value, max) && 0.0 <= v <= max
    requires handle == StartHandle ==> r == Range(Min(v, value.end - 1.0), value.end)
    requires handle == EndHandle ==> r == Range(value.start, Max(v, value.start + 1.0))
    ensures ValidRange(r, max)
  {
  }

  /**
   * The handle follows the pointer exactly unless that would bring the
   * handles closer than one hour, in which case it stops at the gap.
   */
  lemma DragClampsAtGap(value: Range, handle: Handle, fraction: real, max: real)
    ensures var r := DragTo(value, handle, fraction, max);
            match handle
            case StartHandle =>
              (fraction * max <= value.end - 1.0 ==> r.start == fraction * max) &&
              (fraction * max >= value.end - 1.0 ==> r.start == value.end - 1.0)
            case EndHandle =>
              (fraction * max >= value.start + 1.0 ==> r.end == fraction * max) &&
              (fraction * max <= value.start + 1.0 ==> r.end == value.start + 1.0)
  {
  }

  /**
   * What a pointer move reports through `onChange`: nothing unless a drag
   * is in progress with a handle held, else the dragged range.
   */
  function MoveChange(isDragging: bool, activeHandle: Option<Handle>, value: Range,
                      fraction: real, max: real): (change: Option<Range>)
    ensures change.Some? <==> isDragging && activeHandle.Some?
    ensures change.Some? ==> change.value == DragTo(value, activeHandle.value, fraction, max)
  {
    if !isDragging || activeHandle.None? then None
    else Some(DragTo(value, activeHandle.value, fraction, max))
  }

  class TimelineSlider {
    const max: real
    var isDragging: bool
    var activeHandle: Option<Handle>

    constructor (max: real)
      ensures this.max == max && !isDragging && activeHandle == None
    {
      this.max := max;
      isDragging := false;
      activeHandle := None;
    }

    /** Pressing a handle starts a drag of that handle. */
    method HandleMouseDown(handle: Handle)
      modifies this
      ensures isDragging && activeHandle == Some(handle)
    {
      isDragging := true;
      activeHandle := Some(handle);
    }

    /**
     * A pointer move over the document, given the track's left edge and
     * width; returns the range passed to `onChange`, if any.
     */
    method HandleMouseMove(value: Range, clientX: real, left: real, width: real)
      returns (change: Option<Range>)
      requires width > 0.0
      ensures change == MoveChange(isDragging, activeHandle, value,
                                   PointerFraction(clientX, left, width), max)
      ensures change.Some? && activeHandle == Some(StartHandle) ==> change.value.end == value.end
      ensures change.Some? && activeHandle == Some(EndHandle) ==> change.value.start == value.start
      ensures ValidRange(value, max) && change.Some? ==> ValidRange(change.value, max)
    {
      if !isDragging || activeHandle.None? {
        return None;
      }
      var percentage := Max(0.0, Min(1.0, (clientX - left) / width));
      assert percentage == PointerFraction(clientX, left, width);
      var newValue := percentage * max;
      if activeHandle.value == StartHandle {
        change := Some(Range(Min(newValue, value.end - 1.0), value.end));
      } else {
        change := Some(Range(value.start, Max(newValue, value.start + 1.0)));
      }
      assert change == Some(DragTo(value, activeHandle.value, percentage, max));
      if ValidRange(value, max) {
        DragKeepsRangeValid(value, activeHandle.value, percentage, max);
      }
    }

    /** Releasing the pointer ends the drag and lets go of the handle. */
    method HandleMouseUp()
      modifies this
      ensures !isDragging && activeHandle == None
    {
      isDragging := false;
      activeHandle := None;
    }
  }

  /** The slider's drag state together with the range it reports to. */
  datatype SliderState = SliderState(isDragging: bool, activeHandle: Option<Handle>, value: Range)

  /** Pointer events the slider listens to; a move carries its fraction of the track. */
  datatype SliderEvent = Down(handle: Handle) | Move(fraction: real) | Up

  /** One event; a move's `onChange` result becomes the next value. */
  function Step(s: SliderState, e: SliderEvent, max: real): SliderState {
    match e
    case Down(h) => s.(isDragging := true, activeHandle := Some(h))
    case Up => s.(isDragging := false, activeHandle := None)
    case Move(f) =>
      match MoveChange(s.isDragging, s.activeHandle, s.value, f, max)
      case None => s
      case Some(r) => s.(value := r)
  }

  function Run(s: SliderState, events: seq<SliderEvent>, max: real): SliderState
    decreases |events|
  {
    if events == [] then s else Run(Step(s, events[0], max), events[1..], max)
  }

  predicate ClampedMoves(events: seq<SliderEvent>) {
    forall i :: 0 <= i < |events| && events[i].Move? ==> 0.0 <= events[i].fraction <= 1.0
  }

  /** Every state reachable by any sequence of presses, clamped moves and releases keeps the range valid. */
  lemma {:induction false} RunKeepsRangeValid(s: SliderState, events: seq<SliderEvent>, max: real)
    requires ValidRange(s.value, max)
    requires ClampedMoves(events)
    ensures ValidRange(Run(s, events, max).value, max)
    decreases |events|
  {
    if events != [] {
      if events[0].Move? && s.isDragging && s.activeHandle.Some? {
        DragKeepsRangeValid(s.value, s.activeHandle.value, events[0].fraction, max);
      }
      assert ClampedMoves(events[1..]) by {
        forall i | 0 <= i < |events[1..]| && events[1..][i].Move?
          ensures 0.0 <= events[1..][i].fraction <= 1.0
        {
          assert events[1..][i] == events[i + 1];
        }
      }
      RunKeepsRangeValid(Step(s, events[0], max), events[1..], max);
    }
  }

  /** Once released, moves change nothing until a handle is pressed again. */
  lemma {:induction false} MovesAfterReleaseAreInert(s: SliderState, fractions: seq<real>, max: real)
    ensures var moves := seq(|fractions|, i requires 0 <= i < |fractions| => Move(fractions[i]));
            Run(Step(s, Up, max), moves, max) == Step(s, Up, max)
  {
    var moves := seq(|fractions|, i requires 0 <= i < |fractions| => Move(fractions[i]));
    if fractions != [] {
      assert moves[1..] == seq(|fractions[1..]|, i requires 0 <= i < |fractions[1..]| => Move(fractions[1..][i]));
      MovesAfterReleaseAreInert(s, fractions[1..], max);
    }
  }

}
