/** The `Explosion` class of skeet_classes.py: a stationary effect built where a
    target was destroyed, drawn as two 8-vertex star polygons. */
module Explosions {
  import opened Config
  import opened Geometry

  /** `partialRadius` sets the inner vertices of the stars; `startTime` is the
      clock reading taken when the explosion was built. */
  datatype Explosion = Explosion(center: Point, radius: real, partialRadius: real, startTime: real)

  /** `Explosion(x, y)`: centred on (x, y), with the explosion radius and a third
      of it as the partial radius. The wall clock is read by the caller. */
  function NewExplosion(x: real, y: real, startTime: real): (e: Explosion)
    ensures e.center == Point(x, y) && e.startTime == startTime
    ensures e.radius == ExplosionRadius && e.partialRadius == 10.0
    ensures 0.0 < e.partialRadius < e.radius && 3.0 * e.partialRadius == e.radius
  {
    var radius := ExplosionRadius;
    Explosion(Point(x, y), radius, radius / 3.0, startTime)
  }

  /** The first (red) point list of `Explosion.draw`: a four-pointed star whose
      tips lie on the axes at distance `radius` and whose notches lie on the
      diagonals at offset `partial`. */
  function AxisStar(c: Point, radius: real, partial: real): (pts: seq<Point>)
    ensures |pts| == 8
    ensures pts[0] == Point(c.x - radius, c.y) && pts[1] == Point(c.x - partial, c.y + partial)
    ensures forall i :: 0 <= i < 4 ==> IsReflection(c, pts[i], pts[i + 4])
    ensures forall i :: 0 <= i < 6 ==> Offset(c, pts[i + 2]) == RotateQuarter(Offset(c, pts[i]))
    ensures 0.0 <= partial <= radius ==> forall i :: 0 <= i < 8 ==> WithinSquare(c, radius, pts[i])
  {
    [Point(c.x - radius, c.y),
     Point(c.x - partial, c.y + partial),
     Point(c.x, c.y + radius),
     Point(c.x + partial, c.y + partial),
     Point(c.x + radius, c.y),
     Point(c.x + partial, c.y - partial),
     Point(c.x, c.y - radius),
     Point(c.x - partial, c.y - partial)]
  }

  /** The second (yellow) point list of `Explosion.draw`: the same construction
      with the two radii exchanged, so its tips are the corners of the square
      and its notches lie on the axes. */
  function DiagonalStar(c: Point, radius: real, partial: real): (pts: seq<Point>)
    ensures pts == AxisStar(c, partial, radius)
    ensures |pts| == 8
    ensures forall i :: 0 <= i < 4 ==> IsReflection(c, pts[i], pts[i + 4])
    ensures 0.0 <= partial <= radius ==> forall i :: 0 <= i < 8 ==> WithinSquare(c, radius, pts[i])
  {
    [Point(c.x - partial, c.y),
     Point(c.x - radius, c.y + radius),
     Point(c.x, c.y + partial),
     Point(c.x + radius, c.y + radius),
     Point(c.x + partial, c.y),
     Point(c.x + radius, c.y - radius),
     Point(c.x, c.y - partial),
     Point(c.x - radius, c.y - radius)]
  }

  /** The two polygons `Explosion.draw` hands to the renderer, first and second. */
  function StarPolygons(e: Explosion): (stars: (seq<Point>, seq<Point>))
    ensures stars.0 == AxisStar(e.center, e.radius, e.partialRadius)
    ensures stars.1 == DiagonalStar(e.center, e.radius, e.partialRadius)
    ensures |stars.0| == 8 && |stars.1| == 8
    ensures 0.0 <= e.partialRadius <= e.radius ==>
              forall i :: 0 <= i < 8 ==>
                WithinSquare(e.center, e.radius, stars.0[i]) && WithinSquare(e.center, e.radius, stars.1[i])
  {
    (AxisStar(e.center, e.radius, e.partialRadius), DiagonalStar(e.center, e.radius, e.partialRadius))
  }
}
