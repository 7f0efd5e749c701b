/** Points, sizes, boxes and compass ports shared by the layout modules. */
module Geometry {

  /** A `FlatPoint` used as a position. */
  datatype Point = Point(x: real, y: real)

  /** A `FlatPoint` used as a size: its height and its width. */
  datatype Size = Size(height: real, width: real)

  /** The borders of an axis-aligned rectangle. */
  datatype Box = Box(left: real, right: real, up: real, down: real)

  /** The compass ports an edge end can name (`Port`); "no port" is `Option.None`. */
  datatype Port =
    | North | NorthEast | East | SouthEast | South | SouthWest | West | NorthWest

  /** The graph's rank direction (`Rankdir`). */
  datatype Rankdir = TB | BT | LR | RL

  /** `ValueUtils.approximate(a, b, tolerance)`, a foreign comparison passed in by callers. */
  type Approx = (real, real, real) -> bool

  function Max(a: real, b: real): (m: real)
    ensures m >= a && m >= b && (m == a || m == b)
  {
    if a >= b then a else b
  }
}
