/** The target family of skeet_classes.py: `Target`, `Strong_Target` and
    `Safe_Target` construction, the per-variant `hit` state machine and
    `explode`. The random draws of the constructors are parameters. */
module Targets {
  import opened Config
  import opened Geometry
  import opened FlyingObjects
  import opened Explosions

  /** What a target looks like right after construction: alive, in the upper
      half of the screen, moving right, with the velocity ranges of its variant. */
  predicate JustSpawned(t: FlyingObject)
  {
    && t.IsTarget() && t.alive
    && ScreenHeight / 2.0 <= t.center.y <= ScreenHeight
    && (if t.StrongTarget?
        then 1.0 <= t.velocity.dx <= 2.0 && -2.0 <= t.velocity.dy <= 2.0
        else 1.0 <= t.velocity.dx <= 3.0 && -2.0 <= t.velocity.dy <= 3.0)
  }

  /** `Target()`: `y`, `dx` and `dy` are the values drawn uniformly from the
      upper half of the screen, [1, 3] and [-2, 3]. x keeps the default 0. */
  function NewTarget(y: real, dx: real, dy: real): (t: FlyingObject)
    requires ScreenHeight / 2.0 <= y <= ScreenHeight
    requires 1.0 <= dx <= 3.0 && -2.0 <= dy <= 3.0
    ensures t.Target? && t.radius == TargetRadius && JustSpawned(t)
    ensures t.center == Point(Origin.x, y) && t.velocity == Velocity(dx, dy)
    ensures !IsOffScreen(t, ScreenWidth, ScreenHeight)
  {
    Target(Point(Origin.x, y), Velocity(dx, dy), TargetRadius, true)
  }

  /** `Strong_Target()`: the base constructor runs first, then the velocity is
      redrawn from the slower ranges [1, 2] and [-2, 2] and three lives are set.
      The discarded first velocity draw is not a parameter. */
  function NewStrongTarget(y: real, dx: real, dy: real): (t: FlyingObject)
    requires ScreenHeight / 2.0 <= y <= ScreenHeight
    requires 1.0 <= dx <= 2.0 && -2.0 <= dy <= 2.0
    ensures t.StrongTarget? && t.radius == TargetRadius && t.lives == TargetStrongLives
    ensures JustSpawned(t)
    ensures t.center == Point(Origin.x, y) && t.velocity == Velocity(dx, dy)
    ensures !IsOffScreen(t, ScreenWidth, ScreenHeight)
  {
    var base := NewTarget(y, dx, dy);
    StrongTarget(base.center, Velocity(dx, dy), base.radius, base.alive, TargetStrongLives)
  }

  /** `Safe_Target()`: the base constructor with the smaller safe radius. */
  function NewSafeTarget(y: real, dx: real, dy: real): (t: FlyingObject)
    requires ScreenHeight / 2.0 <= y <= ScreenHeight
    requires 1.0 <= dx <= 3.0 && -2.0 <= dy <= 3.0
    ensures t.SafeTarget? && t.radius == TargetSafeRadius && JustSpawned(t)
    ensures t.center == Point(Origin.x, y) && t.velocity == Velocity(dx, dy)
    ensures !IsOffScreen(t, ScreenWidth, ScreenHeight)
  {
    var base := NewTarget(y, dx, dy);
    SafeTarget(base.center, base.velocity, TargetSafeRadius, base.alive)
  }

  /** `Target.hit`: kills the target from any state and scores 1. */
  function TargetHit(t: FlyingObject): (r: (FlyingObject, int))
    requires t.IsTarget()
    ensures !r.0.alive && r.1 == 1
    ensures r.0.(alive := t.alive) == t
  {
    (t.(alive := false), 1)
  }

  /** `Strong_Target.hit`: one life is lost; reaching exactly 0 kills the target
      and scores 5, any other count scores 1 and leaves `alive` as it was.
      Nothing stops the count going below 0 on a target that is already dead. */
  function StrongHit(t: FlyingObject): (r: (FlyingObject, int))
    requires t.StrongTarget?
    ensures r.0.StrongTarget? && r.0.lives == t.lives - 1
    ensures r.0.center == t.center && r.0.velocity == t.velocity && r.0.radius == t.radius
    ensures r.1 == 5 <==> r.0.lives == 0
    ensures r.1 == 5 ==> !r.0.alive
    ensures r.1 != 5 ==> r.1 == 1 && r.0.alive == t.alive
  {
    var lives := t.lives - 1;
    if lives == 0 then
      (StrongTarget(t.center, t.velocity, t.radius, false, lives), 5)
    else
      (StrongTarget(t.center, t.velocity, t.radius, t.alive, lives), 1)
  }

  /** `Safe_Target.hit`: runs the base hit, ignores its score and returns -10. */
  function SafeHit(t: FlyingObject): (r: (FlyingObject, int))
    requires t.SafeTarget?
    ensures r.0 == TargetHit(t).0 && r.1 == -10
    ensures r.0.SafeTarget? && !r.0.alive
  {
    var (hitTarget, _) := TargetHit(t);
    (hitTarget, -10)
  }

  /** `hit` dispatched on the variant, returning the updated target and the
      score delta. */
  function Hit(t: FlyingObject): (r: (FlyingObject, int))
    requires t.IsTarget()
    ensures r.0.IsTarget() && SameVariant(t, r.0)
    ensures r.0.center == t.center && r.0.velocity == t.velocity && r.0.radius == t.radius
    ensures t.StrongTarget? ==> r.0.lives == t.lives - 1
    ensures !t.alive ==> !r.0.alive
    ensures !r.0.alive <==> (!t.alive || !t.StrongTarget? || t.lives == 1)
    ensures r.1 == -10 <==> t.SafeTarget?
    ensures r.1 == 5 <==> (t.StrongTarget? && t.lives == 1)
    ensures r.1 == 1 <==> (t.Target? || (t.StrongTarget? && t.lives != 1))
  {
    if t.StrongTarget? then StrongHit(t)
    else if t.SafeTarget? then SafeHit(t)
    else TargetHit(t)
  }

  /** `n` successive hits on one target: the final target and the score deltas
      in the order they were returned. */
  function HitTimes(t: FlyingObject, n: nat): (r: (FlyingObject, seq<int>))
    requires t.IsTarget()
    ensures r.0.IsTarget() && SameVariant(t, r.0) && |r.1| == n
    ensures r.0.center == t.center && r.0.velocity == t.velocity && r.0.radius == t.radius
    decreases n
  {
    if n == 0 then (t, [])
    else
      var (before, deltas) := HitTimes(t, n - 1);
      var (after, delta) := Hit(before);
      (after, deltas + [delta])
  }

  /** `explode`: an explosion at the target's current centre, with radius 30 and
      partial radius 10; `now` is the clock reading it records. */
  function Explode(t: FlyingObject, now: real): (e: Explosion)
    requires t.IsTarget()
    ensures e.center == t.center && e.startTime == now
    ensures e.radius == ExplosionRadius && e.partialRadius == 10.0
  {
    NewExplosion(t.center.x, t.center.y, now)
  }

  /** Hits that never bring a strong target's count to exactly 0 each score 1,
      take one life and leave `alive` alone; this covers a target hit fewer
      times than it has lives, and one hit again after its count reached 0,
      whose count then goes negative. */
  lemma {:induction false} StrongNonLethalHits(t: FlyingObject, n: nat)
    requires t.StrongTarget?
    requires !(1 <= t.lives <= n)
    ensures HitTimes(t, n) == (t.(lives := t.lives - n), seq(n, _ => 1))
  {
    if n > 0 {
      StrongNonLethalHits(t, n - 1);
      var before := t.(lives := t.lives - (n - 1));
      assert HitTimes(t, n) == (Hit(before).0, seq(n - 1, _ => 1) + [Hit(before).1]);
      assert Hit(before) == (t.(lives := t.lives - n), 1);
      assert seq(n - 1, _ => 1) + [1] == seq(n, _ => 1);
    } else {
      assert seq(0, _ => 1) == [];
    }
  }

  /** A strong target with `k` lives left scores 1 on each of its next k - 1
      hits and 5 on the k-th, which leaves it dead with 0 lives. */
  lemma {:induction false} StrongLethalHit(t: FlyingObject)
    requires t.StrongTarget? && t.lives >= 1
    ensures HitTimes(t, t.lives) == (t.(lives := 0, alive := false), seq(t.lives - 1, _ => 1) + [5])
  {
    StrongNonLethalHits(t, t.lives - 1);
  }

  /** A freshly built strong target returns 1, 1 and 5 on its first three hits,
      stays alive through the first two and is dead with 0 lives after the third. */
  lemma FreshStrongTargetHits(y: real, dx: real, dy: real)
    requires ScreenHeight / 2.0 <= y <= ScreenHeight
    requires 1.0 <= dx <= 2.0 && -2.0 <= dy <= 2.0
    ensures HitTimes(NewStrongTarget(y, dx, dy), 1).0.alive
    ensures HitTimes(NewStrongTarget(y, dx, dy), 2).0.alive
    ensures HitTimes(NewStrongTarget(y, dx, dy), 3).1 == [1, 1, 5]
    ensures HitTimes(NewStrongTarget(y, dx, dy), 3).0.lives == 0
    ensures !HitTimes(NewStrongTarget(y, dx, dy), 3).0.alive
  {
  }

  /** A standard or safe target is dead after its first hit and every hit,
      however many, returns the same delta: 1 for a standard target, -10 for a
      safe one. */
  lemma {:induction false} OneShotHits(t: FlyingObject, n: nat)
    requires t.Target? || t.SafeTarget?
    requires n >= 1
    ensures HitTimes(t, n).0 == t.(alive := false)
    ensures HitTimes(t, n).1 == seq(n, _ => if t.Target? then 1 else -10)
  {
    var d := if t.Target? then 1 else -10;
    if n > 1 {
      OneShotHits(t, n - 1);
      assert seq(n - 1, _ => d) + [d] == seq(n, _ => d);
    }
  }

  /** Hitting and moving are independent: a hit after a frame of motion gives
      the same target and score as the frame of motion after the hit. */
  lemma HitCommutesWithAdvance(t: FlyingObject)
    requires t.IsTarget()
    ensures Hit(Advance(t)) == (Advance(Hit(t).0), Hit(t).1)
  {
  }

  /** Every freshly spawned target moves right by at least a pixel a frame, so
      it is off screen once enough frames have carried it past the right edge. */
  lemma SpawnedTargetLeaves(t: FlyingObject, n: nat)
    requires JustSpawned(t)
    requires (n as real) > ScreenWidth - t.center.x
    ensures IsOffScreen(AdvanceTimes(t, n), ScreenWidth, ScreenHeight)
  {
    RightMoverLeaves(t, n, ScreenWidth, ScreenHeight);
  }

  /** Both star polygons of a target's explosion lie in the square of half-side
      30 around the target's centre, and each is symmetric through that centre. */
  lemma ExplosionAroundTarget(t: FlyingObject, now: real)
    requires t.IsTarget()
    ensures var stars := StarPolygons(Explode(t, now));
      && |stars.0| == 8 && |stars.1| == 8
      && (forall i :: 0 <= i < 8 ==> WithinSquare(t.center, ExplosionRadius, stars.0[i]))
      && (forall i :: 0 <= i < 8 ==> WithinSquare(t.center, ExplosionRadius, stars.1[i]))
      && (forall i :: 0 <= i < 4 ==> IsReflection(t.center, stars.0[i], stars.0[i + 4]))
      && (forall i :: 0 <= i < 4 ==> IsReflection(t.center, stars.1[i], stars.1[i + 4]))
  {
  }
}
