# Voyager path viewer: the animation cursor

This project models, in Dafny, the animation engine of a viewer that shows
Voyager 1's path through a list of mission events (year, coordinates in
kilometres, description). It covers two parts.

- **The plot canvas (`VoyagerPlot`).** It copies the events' x, y and z
  coordinates. It builds a dense path of 500 points on each axis, running in
  a straight line from the first event to the last. It keeps a cursor into
  that path, which moves on by one each step and wraps around. It can jump
  the cursor to an index computed from an x-coordinate, and it reads the
  position at the cursor. It also chooses which events are drawn as markers.
- **The window's animation controls (`MainWindow`).** On each timer tick the
  window advances the cursor and reads the position. It then reports the
  first event, in list order, that lies strictly within 1e9 km, or the
  position alone if no event does. The reset button puts the cursor back at
  the start.

Files:

- `keyframes.dfy` (module `Keyframes`): the event record, positions and
  straight-line interpolation.
- `voyager_plot.dfy` (module `Plot`): `numpy.linspace`, Python's `int()`,
  the path, the marker indices, the jump index, the cursor step and the
  class `VoyagerPlot`.
- `voyager_ui.dfy` (module `Ui`): the proximity test, the first-match scan
  and the class `MainWindow` with the tick and the reset.

Coordinates are exact reals. The event table is a non-empty sequence
passed to the constructors. The proximity test compares the squared
distance with (1e9)²; `Ui.NearIffWithinThreshold` proves that this agrees
with comparing the true distance against 1e9. The cursor is a plain
integer. `show_event` truncates and does not clamp, so it can set the
cursor outside the path. Reading the position then follows numpy's
indexing: an index from -500 to -1 reads from the end of the path, and
any other out-of-range index raises (`None` in the model).

The jump from an x-coordinate truncates toward zero and does not clamp
(`voyager_plot.py:81`), so an x outside the endpoints gives an index off
the path.

## Model

| member | source | states |
|---|---|---|
| `Plot.Trunc` | voyager_plot.py:81 | Python's `int()` truncates toward zero: for a non-negative argument the result is the largest integer not above it, and for a negative argument the smallest integer not below it. |
| `Plot.Linspace` | voyager_plot.py:22-24 | `linspace(start, stop, num)` has `num` entries. The first is `start`. When `num >= 2` the last is exactly `stop` and neighbouring entries differ by `(stop - start) / (num - 1)`. |
| `Plot.LinspaceAt` | voyager_plot.py:22-24 | Entry i of a linspace is `start + i * (stop - start) / (num - 1)`, the final entry included. |
| `Plot.PathIsSegment` | voyager_plot.py:16-24 | Point i of the dense path is the point a fraction `i / 499` of the way from the first event to the last on every axis. It depends on no other event. |
| `Plot.PathEndpoints` | voyager_plot.py:21-24 | Path entry 0 is the first event's position and entry 499 is the last event's, on all three axes. |
| `Plot.MiddleEventOffPath` | voyager_plot.py:16-24 | With events at (0,0,0), (100,50,10) and (500,200,80), no path point equals the middle event: the path skips intermediate events. |
| `Plot.DisplayIndices` | voyager_plot.py:32 | The marker index list has `display_points` entries. |
| `Plot.DisplayIndicesShape` | voyager_plot.py:32 | For a non-empty event list the marker indices start at 0. With at least two markers they end at `len(xs) - 1`. They never decrease and all lie in `[0, len(xs) - 1]`. |
| `Plot.DisplayIndicesDistinct` | voyager_plot.py:32 | With at least two markers and no more markers than events, the marker indices strictly increase, so no event is drawn twice. |
| `Plot.JumpIndex` | voyager_plot.py:81 | The jump fails exactly when the first and last x-coordinates are equal (division by zero). Otherwise the index is the scaled fraction `(x - xs[0]) / (xs[-1] - xs[0]) * 499` truncated toward zero: never above it when that fraction is non-negative, never below it when negative. |
| `Plot.JumpEndpoints` | voyager_plot.py:81 | The first event's x maps to index 0 and the last event's x maps to index 499. |
| `Plot.JumpInRange` | voyager_plot.py:81 | An x between the two endpoint x-coordinates, in either orientation, maps to an index in `[0, 499]`. |
| `Plot.ArrayIndex` | voyager_plot.py:84-85 | A numpy read at index i succeeds exactly when `-len <= i < len`. It reads entry i, or entry `i + len` for a negative i. |
| `Plot.Advance` | voyager_plot.py:76 | One step leaves the cursor in `[0, 500)` from any starting integer and congruent to the old cursor plus one modulo 500, which fixes the value for every cursor, on the path or off it. It moves an in-range cursor to the next index and wraps 499 to 0. |
| `Plot.AdvanceTimesMod` | voyager_plot.py:76 | k steps from an in-range cursor i give `(i + k) mod 500`. |
| `Plot.AdvanceCycle` | voyager_plot.py:76 | 500 steps bring an in-range cursor back to where it started. |
| `Plot.VoyagerPlot.constructor` | voyager_plot.py:8-25 | `xs`, `ys` and `zs` are the events' coordinates in list order. Path point i is the interpolated point between the first and last events only. The cursor starts at 0, and the mode and marker count are stored. |
| `Plot.VoyagerPlot.InitPlot` | voyager_plot.py:29-32 | The marker indices are `linspace(0, len(xs)-1, display_points)` truncated. They start at 0, end at the last event when there are at least two, and are all valid event indices. |
| `Plot.VoyagerPlot.MoveForward` | voyager_plot.py:75-77 | The cursor becomes `(cursor + 1) mod 500` and lies in `[0, 500)`. Only the cursor changes: the coordinates, paths, mode and marker count stay as they were. |
| `Plot.VoyagerPlot.ShowEvent` | voyager_plot.py:79-82 | Only `coords[0]` is used. If the first and last x-coordinates are equal, the call fails and the cursor is unchanged. Otherwise the cursor becomes the jump index. For an x between the endpoints that index is on the path and the position can be read. Only the cursor changes. |
| `Plot.VoyagerPlot.CurrentPosition` | voyager_plot.py:84-85 | The read succeeds exactly when the cursor is in `[-500, 500)`. The position is then the point on the segment from the first to the last event at fraction `j / 499`, where j is the numpy index read. For an in-range cursor it is the path point at the cursor. |
| `Ui.SquaredDistance` | voyager_ui.py:90 | The squared Euclidean distance between two positions is never negative. |
| `Ui.NearIffWithinThreshold` | voyager_ui.py:90-91 | For the true distance `dist`, comparing the squared distance with (1e9)² is the same as `dist < 1e9`. A distance of exactly 1e9 is not near. |
| `Ui.FirstNear` | voyager_ui.py:88-95 | It finds an index exactly when some event is strictly within 1e9 km. That event is near and every earlier event is not. |
| `Ui.TickDetails` | voyager_ui.py:88-96 | A tick reports the position alone exactly when no event is near. Otherwise it reports an event from the list that is near and that every earlier event fails to be. The reported position is always the tick's position. |
| `Ui.ScanEvents` | voyager_ui.py:88-96 | The loop returns nothing exactly when no event is near. Otherwise it returns the first near event in list order, which is a member of the list. |
| `Ui.MainWindow.constructor` | voyager_ui.py:22-46 | The canvas is built over the event table in 3-D mode with 15 markers. The cursor is at 0 and the label holds its opening text. |
| `Ui.MainWindow.ResetAnimation` | voyager_ui.py:81-83 | The cursor becomes 0 and the position read there is the first event's position. The paths and the label are unchanged. |
| `Ui.MainWindow.AnimateVoyager` | voyager_ui.py:85-96 | The cursor advances exactly once, by the `move_forward` rule. The label then shows the report for the position at the new cursor: the first event within 1e9 km, or the position alone. Reading that position cannot fail. |

## Left out

- Drawing is not modelled: `init_plot`'s figure, axes and markers, `plot_trajectory`'s marker update, `set_mode` and `draw()`. `plot_trajectory` reads the same triple as `CurrentPosition`, and that read is modelled.
- Plot.VoyagerPlot.ShowEvent: the trailing `plot_trajectory()` call raises IndexError when the new cursor is beyond the path. The model keeps the cursor assignment, which happens before that call, and `CurrentPosition` reports the failure.
- Plot.VoyagerPlot.ShowEvent: the ZeroDivisionError raised when the first and last x-coordinates are equal is returned as `ok == false`.
- Qt plumbing is not modelled: the canvas's `super().__init__(fig)` and `setParent(parent)` (as written, `parent` is undefined in `voyager_plot.py`, so line 13 raises NameError before any path is built; the modelled constructor is the construction the code evidently intends), the `figure` argument (the window passes itself), widget construction, and timer start and stop. A tick is a plain call to `AnimateVoyager`.
- The label's text formatting (`.2e`) is not modelled. `Details` holds the event and position the text is built from.
- `search_year` and `event_selected` are connected to signals but never defined in the source, so year search and event selection are not part of this model.
- `Voyager_data` is not part of this model. The event table is a constructor parameter and must be non-empty, as the code indexes its first and last entries.
- `ui.py` (a Tkinter GUI), `voyager_api.py` (a JPL Horizons network client and its date parsing) and `voyager_plotter.py` (a matplotlib figure) are not part of this model.
- Floating point is not modelled: coordinates are exact reals. numpy's `linspace` rounding, `np.sqrt`, and a float just below an integer truncating one lower in `astype(int)` or `int()` are outside the model.
