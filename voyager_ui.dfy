/** The viewer window's animation controls: the timer tick, which moves the
    plot's cursor and reports the first mission event near the new
    position, and the reset button. */
module Ui {
  import opened Keyframes
  import opened Plot

  /** Proximity radius in kilometres (1e9). */
  const Threshold: real := 1000000000.0

  /** The squared Euclidean distance between two positions. */
  function SquaredDistance(p: Coords, q: Coords): (d: real)
    ensures d >= 0.0
  {
    var dx, dy, dz := p.x - q.x, p.y - q.y, p.z - q.z;
    SquareNonNegative(dx);
    SquareNonNegative(dy);
    SquareNonNegative(dz);
    dx * dx + dy * dy + dz * dz
  }

  lemma SquareNonNegative(a: real)
    ensures 0.0 <= a * a
  {
  }

  /** An event is near a position when it lies strictly within the radius.
      The test compares squares, so no square root is taken. */
  predicate Near(pos: Coords, e: Event) {
    SquaredDistance(pos, e.coords) < Threshold * Threshold
  }

  /** For the Euclidean distance `dist` (the non-negative root of the
      squared distance) the squared test agrees with `dist < 1e9`; an event
      exactly 1e9 km away is not near. */
  lemma NearIffWithinThreshold(pos: Coords, e: Event, dist: real)
    requires dist >= 0.0 && dist * dist == SquaredDistance(pos, e.coords)
    ensures Near(pos, e) <==> dist < Threshold
  {
    if dist < Threshold {
      assert dist * dist <= dist * Threshold;
      assert dist * Threshold < Threshold * Threshold;
    } else {
      assert dist * dist >= Threshold * dist;
      assert Threshold * dist >= Threshold * Threshold;
    }
  }

  /** The index of the first event, in list order, near `pos`. */
  function FirstNear(events: seq<Event>, pos: Coords): (r: Option<nat>)
    ensures r.Some? ==> r.value < |events| && Near(pos, events[r.value])
    ensures r.Some? ==> forall j :: 0 <= j < r.value ==> !Near(pos, events[j])
    ensures r.None? <==> forall j :: 0 <= j < |events| ==> !Near(pos, events[j])
  {
    if |events| == 0 then None
    else if Near(pos, events[0]) then Some(0)
    else
      match FirstNear(events[1..], pos)
      case None =>
        assert forall j :: 1 <= j < |events| ==> events[j] == events[1..][j - 1];
        None
      case Some(k) =>
        assert forall j :: 1 <= j < k + 1 ==> events[j] == events[1..][j - 1];
        Some(k + 1)
  }

  /** What the details label shows. */
  datatype Details =
    | Startup                                 // the text the window opens with
    | EventReached(event: Event, pos: Coords) // an event's year and description, and the position
    | Moving(pos: Coords)                     // the position alone

  /** The report of one tick at position `pos`: the first event near it, or
      the position alone when none is. */
  function TickDetails(events: seq<Event>, pos: Coords): (d: Details)
    ensures !d.Startup? && d.pos == pos
    ensures d.Moving? <==> forall j :: 0 <= j < |events| ==> !Near(pos, events[j])
    ensures d.EventReached? ==> d.event in events && Near(pos, d.event)
    ensures d.EventReached? ==>
              exists k :: 0 <= k < |events| && events[k] == d.event &&
                          forall j :: 0 <= j < k ==> !Near(pos, events[j])
  {
    match FirstNear(events, pos)
    case Some(k) => EventReached(events[k], pos)
    case None => Moving(pos)
  }

  /** The loop of the tick: the first event, in list order, near `pos`, or
      None when no event is. */
  method ScanEvents(events: seq<Event>, pos: Coords) returns (found: Option<Event>)
    ensures found.None? <==> forall j :: 0 <= j < |events| ==> !Near(pos, events[j])
    ensures found.Some? ==> found.value in events && Near(pos, found.value)
    ensures found.Some? ==>
              exists k :: 0 <= k < |events| && events[k] == found.value &&
                          forall j :: 0 <= j < k ==> !Near(pos, events[j])
  {
    for i := 0 to |events|
      invariant forall j :: 0 <= j < i ==> !Near(pos, events[j])
    {
      if Near(pos, events[i]) {
        return Some(events[i]);
      }
    }
    return None;
  }

  /** The main window, reduced to what the animation uses: the event table,
      the plot canvas holding the cursor, and the details label. */
  class MainWindow {
    const events: seq<Event>
    const plot: VoyagerPlot
    var details: Details

    ghost predicate Valid()
      reads this, plot
    {
      |events| > 0 && plot.Valid() &&
      plot.First() == events[0].coords && plot.Last() == LastEvent(events).coords
    }

    /** The position the animation shows at path index i. */
    function Animated(i: nat): Coords
      requires |events| > 0 && i < NumSteps
    {
      PathPoint(events[0].coords, LastEvent(events).coords, i)
    }

    /** Builds the canvas over the event table, in 3-D mode with the default
        number of markers; the cursor starts at the first event. */
    constructor (events: seq<Event>)
      requires |events| > 0
      ensures Valid() && fresh(plot)
      ensures this.events == events
      ensures plot.currentIndex == 0 && plot.mode == "3D" && plot.displayPoints == DefaultDisplayPoints
      ensures details == Startup
    {
      this.events := events;
      plot := new VoyagerPlot(events, "3D", DefaultDisplayPoints);
      details := Startup;
    }

    /** The reset button: the cursor goes back to index 0, which is the
        first event's position; the paths and the label are untouched. */
    method ResetAnimation()
      requires Valid()
      modifies plot`currentIndex
      ensures Valid()
      ensures plot.currentIndex == 0
      ensures plot.CurrentPosition() == Some(events[0].coords)
    {
      plot.currentIndex := 0;
      PathEndpoints(events[0].coords, LastEvent(events).coords);
    }

    /** One timer tick: the cursor advances once, the position at the new
        cursor is read, and the label shows the first event near it, or the
        position alone. */
    method AnimateVoyager()
      requires Valid()
      modifies this`details, plot`currentIndex
      ensures Valid()
      ensures plot.currentIndex == Advance(old(plot.currentIndex))
      ensures details == TickDetails(events, Animated(plot.currentIndex))
    {
      plot.MoveForward();
      var position := plot.CurrentPosition();
      var pos := position.value;
      var found := ScanEvents(events, pos);
      match found
      case Some(e) =>
        details := EventReached(e, pos);
      case None =>
        details := Moving(pos);
    }
  }
}
