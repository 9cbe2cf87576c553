/** The animation side of the plot canvas: the dense path from the first to
    the last event, the cursor into it, the jump from an x-coordinate to an
    index, and the choice of which events are drawn as markers. */
module Plot {
  import opened Keyframes

  /** Number of points on the animated path (`num_steps`). */
  const NumSteps: nat := 500

  /** Number of events drawn as markers unless the caller says otherwise. */
  const DefaultDisplayPoints: nat := 15

  /** Python's `int()` on a number: truncation toward zero. */
  function Trunc(r: real): (n: int)
    ensures 0.0 <= r ==> 0 <= n && n as real <= r < n as real + 1.0
    ensures r < 0.0 ==> n <= 0 && n as real - 1.0 < r <= n as real
  {
    if r >= 0.0 then r.Floor else -((-r).Floor)
  }

  /** Distance between neighbouring values of `Linspace(start, stop, num)`. */
  function Step(start: real, stop: real, num: nat): real
    requires num >= 2
  {
    (stop - start) / ((num - 1) as real)
  }

  /** `numpy.linspace(start, stop, num)` in exact arithmetic: `num` values
      from `start` to `stop`, both included, evenly spaced.  A single value
      is `start`; the last of several is set to `stop` exactly. */
  function Linspace(start: real, stop: real, num: nat): (r: seq<real>)
    ensures |r| == num
    ensures num >= 1 ==> r[0] == start
    ensures num >= 2 ==> r[num - 1] == stop
    ensures num >= 2 ==> forall i :: 0 <= i < num - 1 ==> r[i + 1] - r[i] == Step(start, stop, num)
  {
    if num < 2 then seq(num, i => start)
    else
      StepsReachStop(start, stop, num);
      seq(num, i requires 0 <= i < num =>
        if i == num - 1 then stop else start + (i as real) * Step(start, stop, num))
  }

  /** `num - 1` steps lead from `start` exactly to `stop`. */
  lemma StepsReachStop(start: real, stop: real, num: nat)
    requires num >= 2
    ensures start + ((num - 1) as real) * Step(start, stop, num) == stop
  {
    var n := (num - 1) as real;
    assert n * ((stop - start) / n) == stop - start;
  }

  /** Every value of a linspace lies the given number of steps from `start`,
      the last one included. */
  lemma {:induction false} LinspaceAt(start: real, stop: real, num: nat, i: nat)
    requires num >= 2 && i < num
    ensures Linspace(start, stop, num)[i] == start + (i as real) * Step(start, stop, num)
  {
    var r := Linspace(start, stop, num);
    if i > 0 {
      LinspaceAt(start, stop, num, i - 1);
      assert r[i] - r[i - 1] == Step(start, stop, num);
    }
  }

  /** An increasing linspace stays between its endpoints and never decreases. */
  lemma LinspaceMonotone(start: real, stop: real, num: nat, i: nat, j: nat)
    requires start <= stop && i <= j < num
    ensures start <= Linspace(start, stop, num)[i] <= Linspace(start, stop, num)[j] <= stop
  {
    if num >= 2 {
      var s := Step(start, stop, num);
      assert s >= 0.0;
      LinspaceAt(start, stop, num, i);
      LinspaceAt(start, stop, num, j);
      LinspaceAt(start, stop, num, num - 1);
      MulNonNegative((j - i) as real, s);
      MulNonNegative((num - 1 - j) as real, s);
      MulNonNegative(i as real, s);
      assert (j as real) * s - (i as real) * s == ((j - i) as real) * s;
      assert ((num - 1) as real) * s - (j as real) * s == ((num - 1 - j) as real) * s;
    }
  }

  lemma MulNonNegative(a: real, b: real)
    requires 0.0 <= a && 0.0 <= b
    ensures 0.0 <= a * b
  {
  }

  /** The point at index i of the dense path from `first` to `last`: the
      i-th entry of `path_x`, `path_y` and `path_z`. */
  function PathPoint(first: Coords, last: Coords, i: nat): Coords
    requires i < NumSteps
  {
    Coords(Linspace(first.x, last.x, NumSteps)[i],
           Linspace(first.y, last.y, NumSteps)[i],
           Linspace(first.z, last.z, NumSteps)[i])
  }

  /** The dense path is the straight segment from the first event to the
      last, sampled at fractions i / (NumSteps - 1). */
  lemma PathIsSegment(first: Coords, last: Coords, i: nat)
    requires i < NumSteps
    ensures PathPoint(first, last, i) == Lerp(first, last, (i as real) / ((NumSteps - 1) as real))
  {
    var n := (NumSteps - 1) as real;
    var t := (i as real) / n;
    LinspaceAt(first.x, last.x, NumSteps, i);
    LinspaceAt(first.y, last.y, NumSteps, i);
    LinspaceAt(first.z, last.z, NumSteps, i);
    assert (i as real) * ((last.x - first.x) / n) == t * (last.x - first.x);
    assert (i as real) * ((last.y - first.y) / n) == t * (last.y - first.y);
    assert (i as real) * ((last.z - first.z) / n) == t * (last.z - first.z);
  }

  /** The path starts at the first event and ends at the last one. */
  lemma PathEndpoints(first: Coords, last: Coords)
    ensures PathPoint(first, last, 0) == first
    ensures PathPoint(first, last, NumSteps - 1) == last
  {
  }

  /** The path ignores intermediate events.  With events at (0, 0, 0),
      (100, 50, 10) and (500, 200, 80), no point of the animated path is the
      middle event's position. */
  lemma MiddleEventOffPath(i: nat)
    requires i < NumSteps
    ensures PathPoint(Coords(0.0, 0.0, 0.0), Coords(500.0, 200.0, 80.0), i) != Coords(100.0, 50.0, 10.0)
  {
    var first, last := Coords(0.0, 0.0, 0.0), Coords(500.0, 200.0, 80.0);
    var t := (i as real) / ((NumSteps - 1) as real);
    PathIsSegment(first, last, i);
    var p := PathPoint(first, last, i);
    assert p.x == t * 500.0 && p.y == t * 200.0;
    assert p.x == 100.0 ==> p.y == 40.0;
  }

  /** The indices of the events drawn as markers:
      `linspace(0, count - 1, displayPoints).astype(int)`. */
  function DisplayIndices(count: nat, displayPoints: nat): (r: seq<int>)
    ensures |r| == displayPoints
  {
    var grid := Linspace(0.0, (count - 1) as real, displayPoints);
    seq(displayPoints, i requires 0 <= i < displayPoints => Trunc(grid[i]))
  }

  lemma TruncMonotone(a: real, b: real)
    requires 0.0 <= a <= b
    ensures 0 <= Trunc(a) <= Trunc(b)
  {
  }

  /** The marker indices start at the first event, end at the last one when
      there are at least two markers, never decrease and are all valid
      indices into the event list. */
  lemma DisplayIndicesShape(count: nat, displayPoints: nat)
    requires count >= 1
    ensures displayPoints >= 1 ==> DisplayIndices(count, displayPoints)[0] == 0
    ensures displayPoints >= 2 ==> DisplayIndices(count, displayPoints)[displayPoints - 1] == count - 1
    ensures forall i :: 0 <= i < displayPoints ==> 0 <= DisplayIndices(count, displayPoints)[i] < count
    ensures forall i, j :: 0 <= i <= j < displayPoints ==>
              DisplayIndices(count, displayPoints)[i] <= DisplayIndices(count, displayPoints)[j]
  {
    var top := (count - 1) as real;
    var grid := Linspace(0.0, top, displayPoints);
    var r := DisplayIndices(count, displayPoints);
    forall i | 0 <= i < displayPoints
      ensures 0 <= r[i] < count
    {
      LinspaceMonotone(0.0, top, displayPoints, i, i);
      TruncMonotone(grid[i], top);
    }
    forall i, j | 0 <= i <= j < displayPoints
      ensures r[i] <= r[j]
    {
      LinspaceMonotone(0.0, top, displayPoints, i, j);
      TruncMonotone(grid[i], grid[j]);
    }
  }

  /** With no more markers than events, every marker shows a different
      event: the indices strictly increase. */
  lemma DisplayIndicesDistinct(count: nat, displayPoints: nat)
    requires 2 <= displayPoints <= count
    ensures forall i :: 0 <= i < displayPoints - 1 ==>
              DisplayIndices(count, displayPoints)[i] < DisplayIndices(count, displayPoints)[i + 1]
  {
    var top := (count - 1) as real;
    var grid := Linspace(0.0, top, displayPoints);
    var r := DisplayIndices(count, displayPoints);
    var s := Step(0.0, top, displayPoints);
    assert s >= 1.0 by {
      var n := (displayPoints - 1) as real;
      assert top >= n;
      assert s * n == top;
    }
    forall i | 0 <= i < displayPoints - 1
      ensures r[i] < r[i + 1]
    {
      LinspaceMonotone(0.0, top, displayPoints, i, i);
      assert grid[i + 1] - grid[i] == s;
    }
  }

  /** The index `show_event` computes from an x-coordinate x, with `x0` and
      `xLast` the first and last events' x-coordinates: the truncated
      fraction of the way from `x0` to `xLast`, scaled to the path's last
      index.  None when the two endpoints coincide (the division raises).
      The result is neither rounded nor clamped. */
  function JumpIndex(x0: real, xLast: real, x: real): (r: Option<int>)
    ensures r.None? <==> xLast == x0
    ensures r.Some? ==> var q := (x - x0) / (xLast - x0) * ((NumSteps - 1) as real);
                        if q >= 0.0 then r.value as real <= q < r.value as real + 1.0
                        else q <= r.value as real < q + 1.0
  {
    if xLast - x0 == 0.0 then None
    else Some(Trunc((x - x0) / (xLast - x0) * ((NumSteps - 1) as real)))
  }

  /** The first event's x maps to the start of the path and the last
      event's x to its end. */
  lemma JumpEndpoints(x0: real, xLast: real)
    requires x0 != xLast
    ensures JumpIndex(x0, xLast, x0) == Some(0)
    ensures JumpIndex(x0, xLast, xLast) == Some(NumSteps - 1)
  {
    var d := xLast - x0;
    assert d / d == 1.0;
  }

  /** An x between the two endpoints, in either orientation, yields an index
      on the path. */
  lemma JumpInRange(x0: real, xLast: real, x: real)
    requires x0 != xLast
    requires x0 <= x <= xLast || xLast <= x <= x0
    ensures JumpIndex(x0, xLast, x).Some?
    ensures 0 <= JumpIndex(x0, xLast, x).value < NumSteps
  {
    var d := xLast - x0;
    var f := (x - x0) / d;
    assert f * d == x - x0;
    if d > 0.0 {
      assert 0.0 <= f <= 1.0;
    } else {
      assert 0.0 <= f <= 1.0;
    }
    assert 0.0 <= f * ((NumSteps - 1) as real) <= (NumSteps - 1) as real;
  }

  /** Where numpy's `a[i]` reads in an array of `len` entries: negative
      indices count from the end; anything else out of range raises. */
  function ArrayIndex(i: int, len: nat): (r: Option<nat>)
    ensures r.Some? <==> -(len as int) <= i < len
    ensures r.Some? ==> r.value < len && (r.value == i || r.value == i + len)
  {
    if 0 <= i < len then Some(i)
    else if -(len as int) <= i < 0 then Some(i + len)
    else None
  }

  /** The cursor after one `move_forward`: the next index, wrapping to 0
      after the last.  Python's `%` by a positive number and Dafny's agree. */
  function Advance(i: int): (r: int)
    ensures 0 <= r < NumSteps
    ensures 0 <= i < NumSteps - 1 ==> r == i + 1
    ensures i == NumSteps - 1 ==> r == 0
    ensures (r - (i + 1)) % NumSteps == 0
  {
    (i + 1) % NumSteps
  }

  /** The cursor after k ticks starting from i. */
  ghost function AdvanceTimes(i: int, k: nat): int {
    if k == 0 then i else Advance(AdvanceTimes(i, k - 1))
  }

  /** From an index on the path, k ticks move the cursor k places on,
      modulo the path length. */
  lemma {:induction false} AdvanceTimesMod(i: int, k: nat)
    requires 0 <= i < NumSteps
    ensures AdvanceTimes(i, k) == (i + k) % NumSteps
  {
    if k > 0 {
      AdvanceTimesMod(i, k - 1);
      var p := (i + k - 1) % NumSteps;
      assert i + k - 1 == ((i + k - 1) / NumSteps) * NumSteps + p;
      if p == NumSteps - 1 {
        assert i + k == ((i + k - 1) / NumSteps + 1) * NumSteps;
      } else {
        assert i + k == ((i + k - 1) / NumSteps) * NumSteps + (p + 1);
      }
    }
  }

  /** The animation is cyclic: `NumSteps` ticks bring the cursor back to
      where it started. */
  lemma AdvanceCycle(i: int)
    requires 0 <= i < NumSteps
    ensures AdvanceTimes(i, NumSteps) == i
  {
    AdvanceTimesMod(i, NumSteps);
  }

  /** The canvas's animation state.  `xs`, `ys` and `zs` are the events'
      coordinates, the three paths the dense path between the first and
      last event, and `currentIndex` the cursor, a plain integer that
      `ShowEvent` may set outside the path. */
  class VoyagerPlot {
    var mode: string
    var displayPoints: nat
    var xs: seq<real>
    var ys: seq<real>
    var zs: seq<real>
    var pathX: seq<real>
    var pathY: seq<real>
    var pathZ: seq<real>
    var currentIndex: int

    ghost predicate Valid()
      reads this
    {
      |xs| > 0 && |ys| == |xs| && |zs| == |xs| &&
      pathX == Linspace(xs[0], xs[|xs| - 1], NumSteps) &&
      pathY == Linspace(ys[0], ys[|ys| - 1], NumSteps) &&
      pathZ == Linspace(zs[0], zs[|zs| - 1], NumSteps)
    }

    /** The first event's position. */
    function First(): Coords
      reads this
      requires Valid()
    {
      Coords(xs[0], ys[0], zs[0])
    }

    /** The last event's position. */
    function Last(): Coords
      reads this
      requires Valid()
    {
      Coords(xs[|xs| - 1], ys[|ys| - 1], zs[|zs| - 1])
    }

    /** Copies the events' coordinates and builds the dense path from the
        first event to the last; the cursor starts at 0. */
    constructor (events: seq<Event>, mode: string, displayPoints: nat)
      requires |events| > 0
      ensures Valid()
      ensures xs == Column(events, X) && ys == Column(events, Y) && zs == Column(events, Z)
      ensures First() == events[0].coords && Last() == LastEvent(events).coords
      ensures forall i :: 0 <= i < NumSteps ==>
                Coords(pathX[i], pathY[i], pathZ[i]) == PathPoint(events[0].coords, LastEvent(events).coords, i)
      ensures currentIndex == 0
      ensures this.mode == mode && this.displayPoints == displayPoints
    {
      this.mode := mode;
      this.displayPoints := displayPoints;
      var x, y, z := Column(events, X), Column(events, Y), Column(events, Z);
      xs, ys, zs := x, y, z;
      pathX := Linspace(x[0], x[|x| - 1], NumSteps);
      pathY := Linspace(y[0], y[|y| - 1], NumSteps);
      pathZ := Linspace(z[0], z[|z| - 1], NumSteps);
      currentIndex := 0;
    }

    /** The indices of the events `init_plot` draws, with their shape. */
    method InitPlot() returns (idxs: seq<int>)
      requires Valid()
      ensures idxs == DisplayIndices(|xs|, displayPoints)
      ensures displayPoints >= 1 ==> idxs[0] == 0
      ensures displayPoints >= 2 ==> idxs[displayPoints - 1] == |xs| - 1
      ensures forall i :: 0 <= i < |idxs| ==> 0 <= idxs[i] < |xs|
    {
      DisplayIndicesShape(|xs|, displayPoints);
      idxs := DisplayIndices(|xs|, displayPoints);
    }

    /** One animation step: the cursor moves on by one, wrapping. */
    method MoveForward()
      requires Valid()
      modifies this`currentIndex
      ensures Valid()
      ensures currentIndex == Advance(old(currentIndex))
      ensures 0 <= currentIndex < NumSteps
    {
      currentIndex := (currentIndex + 1) % NumSteps;
    }

    /** Moves the cursor to the index for `coords`' x-coordinate.  Fails,
        leaving the cursor where it was, when the first and last events
        share their x-coordinate. */
    method ShowEvent(coords: Coords) returns (ok: bool)
      requires Valid()
      modifies this`currentIndex
      ensures Valid()
      ensures ok <==> xs[|xs| - 1] != xs[0]
      ensures ok ==> Some(currentIndex) == JumpIndex(xs[0], xs[|xs| - 1], coords.x)
      ensures !ok ==> currentIndex == old(currentIndex)
      ensures ok && (xs[0] <= coords.x <= xs[|xs| - 1] || xs[|xs| - 1] <= coords.x <= xs[0]) ==>
                0 <= currentIndex < NumSteps && CurrentPosition().Some?
    {
      if xs[|xs| - 1] != xs[0] && (xs[0] <= coords.x <= xs[|xs| - 1] || xs[|xs| - 1] <= coords.x <= xs[0]) {
        JumpInRange(xs[0], xs[|xs| - 1], coords.x);
      }
      var r := JumpIndex(xs[0], xs[|xs| - 1], coords.x);
      match r
      case None =>
        ok := false;
      case Some(k) =>
        currentIndex := k;
        ok := true;
    }

    /** The position at the cursor, read from the three paths: a point on
        the segment from the first event to the last.  A negative cursor
        reads from the end of the paths; None stands for the IndexError of
        a cursor beyond them. */
    function CurrentPosition(): (r: Option<Coords>)
      reads this
      requires Valid()
      ensures r.Some? <==> -(NumSteps as int) <= currentIndex < NumSteps
      ensures r.Some? ==>
                var j := ArrayIndex(currentIndex, NumSteps).value;
                r.value == Lerp(First(), Last(), (j as real) / ((NumSteps - 1) as real))
      ensures 0 <= currentIndex < NumSteps ==> r == Some(PathPoint(First(), Last(), currentIndex))
    {
      match ArrayIndex(currentIndex, NumSteps)
      case None => None
      case Some(j) =>
        PathIsSegment(First(), Last(), j);
        Some(Coords(pathX[j], pathY[j], pathZ[j]))
    }
  }
}
