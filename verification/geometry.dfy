/** Geometry primitives: the `Point` and `Velocity` classes of skeet_classes.py,
    as immutable values with exact real coordinates. */
module Geometry {

  /** A position on the screen; y grows upwards. */
  datatype Point = Point(x: real, y: real)

  /** A displacement per frame. */
  datatype Velocity = Velocity(dx: real, dy: real)

  /** Both classes start at the origin when constructed. */
  const Origin: Point := Point(0.0, 0.0)
  const Still: Velocity := Velocity(0.0, 0.0)

  /** The point `p` moved by one frame of `v`. */
  function Translate(p: Point, v: Velocity): (q: Point)
    ensures Offset(p, q) == v
  {
    Point(p.x + v.dx, p.y + v.dy)
  }

  /** The displacement that leads from `from` to `to`. */
  function Offset(from: Point, to: Point): Velocity
  {
    Velocity(to.x - from.x, to.y - from.y)
  }

  /** A quarter turn clockwise (with y growing upwards). */
  function RotateQuarter(v: Velocity): Velocity
  {
    Velocity(v.dy, -v.dx)
  }

  /** `q` is the point reflection of `p` through `c`. */
  predicate IsReflection(c: Point, p: Point, q: Point)
  {
    Offset(c, q) == Velocity(-Offset(c, p).dx, -Offset(c, p).dy)
  }

  /** `p` lies in the closed axis-aligned square of half-side `half` centred on `c`. */
  predicate WithinSquare(c: Point, half: real, p: Point)
  {
    c.x - half <= p.x <= c.x + half && c.y - half <= p.y <= c.y + half
  }
}
