/** Axis-aligned boxes `(x1, y1, x2, y2)`, one row of an `(n, 4)` box array. */
module Boxes {

  datatype Box = Box(x1: real, y1: real, x2: real, y2: real)

  const ZeroBox := Box(0.0, 0.0, 0.0, 0.0)
  const OneBox := Box(1.0, 1.0, 1.0, 1.0)
}
