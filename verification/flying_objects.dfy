/** The `Flying_Objects` hierarchy of skeet_classes.py as one closed sum type.
    Every variant owns a centre, a velocity, a radius and an `alive` flag; only
    the strong target carries a life counter. Drawing is not modelled. */
module FlyingObjects {
  import opened Config
  import opened Geometry

  datatype FlyingObject =
    | Bullet(center: Point, velocity: Velocity, radius: real, alive: bool)
    | Target(center: Point, velocity: Velocity, radius: real, alive: bool)
    | StrongTarget(center: Point, velocity: Velocity, radius: real, alive: bool, lives: int)
    | SafeTarget(center: Point, velocity: Velocity, radius: real, alive: bool)
  {
    /** The variants that derive from `Target` and so have `hit` and `explode`. */
    predicate IsTarget()
    {
      !Bullet?
    }
  }

  /** Both objects are the same variant (a target never changes kind). */
  predicate SameVariant(a: FlyingObject, b: FlyingObject)
  {
    (a.Bullet? <==> b.Bullet?) && (a.Target? <==> b.Target?) &&
    (a.StrongTarget? <==> b.StrongTarget?) && (a.SafeTarget? <==> b.SafeTarget?)
  }

  /** One frame of motion: the centre moves by the velocity, nothing else changes. */
  function Advance(o: FlyingObject): (r: FlyingObject)
    ensures r.center.x - o.center.x == o.velocity.dx
    ensures r.center.y - o.center.y == o.velocity.dy
    ensures r == o.(center := r.center)
  {
    o.(center := Translate(o.center, o.velocity))
  }

  /** `n` successive frames of motion. */
  function AdvanceTimes(o: FlyingObject, n: nat): (r: FlyingObject)
    ensures r.center == Point(o.center.x + (n as real) * o.velocity.dx,
                              o.center.y + (n as real) * o.velocity.dy)
    ensures r == o.(center := r.center)
    decreases n
  {
    if n == 0 then o else Advance(AdvanceTimes(o, n - 1))
  }

  /** The screen-exit test. The left edge is never checked: an object with a
      negative x is still on screen as long as x and y are otherwise in range. */
  function IsOffScreen(o: FlyingObject, screenWidth: real, screenHeight: real): (offScreen: bool)
    ensures offScreen <==> !(o.center.x <= screenWidth && 0.0 <= o.center.y <= screenHeight)
    ensures o.center.x <= screenWidth ==>
              (offScreen <==> (o.center.y < 0.0 || o.center.y > screenHeight))
  {
    o.center.x > screenWidth || 0.0 > o.center.y || o.center.y > screenHeight
  }

  /** The boundary cases on the default 600 by 500 screen. */
  lemma OffScreenExamples(o: FlyingObject)
    ensures !IsOffScreen(o.(center := Point(-5.0, 250.0)), ScreenWidth, ScreenHeight)
    ensures !IsOffScreen(o.(center := Point(600.0, 250.0)), ScreenWidth, ScreenHeight)
    ensures IsOffScreen(o.(center := Point(601.0, 250.0)), ScreenWidth, ScreenHeight)
    ensures IsOffScreen(o.(center := Point(300.0, -1.0)), ScreenWidth, ScreenHeight)
    ensures IsOffScreen(o.(center := Point(300.0, 501.0)), ScreenWidth, ScreenHeight)
  {
  }

  /** An object that moves right by at least one pixel a frame has left the
      screen once its x has been carried past the right edge. */
  lemma {:induction false} RightMoverLeaves(o: FlyingObject, n: nat, screenWidth: real, screenHeight: real)
    requires o.velocity.dx >= 1.0
    requires (n as real) > screenWidth - o.center.x
    ensures IsOffScreen(AdvanceTimes(o, n), screenWidth, screenHeight)
  {
    assert (n as real) * o.velocity.dx >= (n as real) * 1.0;
  }

  /** Because the left edge is not checked, an object on screen that drifts
      horizontally leftwards (or stands still) is never reported off screen. */
  lemma LeftDrifterStays(o: FlyingObject, n: nat, screenWidth: real, screenHeight: real)
    requires o.velocity.dx <= 0.0 && o.velocity.dy == 0.0
    requires !IsOffScreen(o, screenWidth, screenHeight)
    ensures !IsOffScreen(AdvanceTimes(o, n), screenWidth, screenHeight)
  {
  }

  /** `Bullet()`: at the origin, at rest, alive, with the bullet radius. */
  function NewBullet(): (b: FlyingObject)
    ensures b.Bullet? && b.alive && b.radius == BulletRadius
    ensures b.center == Origin && b.velocity == Still
  {
    Bullet(Origin, Still, BulletRadius, true)
  }

  /** `Bullet.fire`: the velocity becomes the firing direction scaled by the
      bullet speed: its length is the speed and its projection on the firing
      direction is the whole speed, so it points along that direction.
      The cosine and sine of the angle come from the math library and are
      passed in; they satisfy the Pythagorean identity. */
  function Fire(b: FlyingObject, cosAngle: real, sinAngle: real): (r: FlyingObject)
    requires b.Bullet?
    requires cosAngle * cosAngle + sinAngle * sinAngle == 1.0
    ensures r == b.(velocity := r.velocity)
    ensures r.velocity.dx * r.velocity.dx + r.velocity.dy * r.velocity.dy == BulletSpeed * BulletSpeed
    ensures r.velocity.dx * cosAngle + r.velocity.dy * sinAngle == BulletSpeed
  {
    Bullet(b.center, Velocity(cosAngle * BulletSpeed, sinAngle * BulletSpeed), b.radius, b.alive)
  }

  /** Firing a fresh bullet at angle 0 (cosine 1, sine 0) gives velocity (10, 0),
      and one frame later the bullet is at (10, 0). */
  lemma FireAtZeroDegrees()
    ensures Fire(NewBullet(), 1.0, 0.0).velocity == Velocity(BulletSpeed, 0.0)
    ensures Advance(Fire(NewBullet(), 1.0, 0.0)).center == Point(10.0, 0.0)
  {
  }
}
