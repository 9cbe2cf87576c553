/** The mission keyframes the viewer reads from its static event table:
    each event has a year, a 3-D position in kilometres and a description.
    Coordinates are exact reals rather than floating-point numbers. */
module Keyframes {

  datatype Option<T> = None | Some(value: T)

  /** A position in space, in kilometres. */
  datatype Coords = Coords(x: real, y: real, z: real)

  datatype Axis = X | Y | Z

  /** One coordinate of a position (`coords[0]`, `coords[1]`, `coords[2]`). */
  function Component(c: Coords, a: Axis): real {
    match a
    case X => c.x
    case Y => c.y
    case Z => c.z
  }

  /** A mission event: its year, its coordinates and its description. */
  datatype Event = Event(year: int, coords: Coords, description: string)

  /** One axis of every event's coordinates, in list order. */
  function Column(events: seq<Event>, a: Axis): seq<real> {
    seq(|events|, i requires 0 <= i < |events| => Component(events[i].coords, a))
  }

  function LastEvent(events: seq<Event>): Event
    requires |events| > 0
  {
    events[|events| - 1]
  }

  /** The point a fraction t of the way from a to b, on each axis. */
  function Lerp(a: Coords, b: Coords, t: real): Coords {
    Coords(a.x + t * (b.x - a.x), a.y + t * (b.y - a.y), a.z + t * (b.z - a.z))
  }
}
