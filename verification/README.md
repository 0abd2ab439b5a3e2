# Skeet entities in Dafny

A model of the entity logic of a small arcade skeet-shooting game
(`skeet_classes.py`). The player fires bullets at targets that fly across a
600 by 500 screen. This model covers:

- **motion**: one frame of `advance`, and repeated frames;
- **the screen-exit test** `is_off_screen`, which never checks the left edge;
- **the three target variants**: standard, strong and safe. Each has a
  constructor and a `hit` that returns a score delta;
- **`explode`**, and the two eight-vertex star polygons an explosion is drawn
  with.

The source's class hierarchy becomes one closed sum type,
`FlyingObjects.FlyingObject = Bullet | Target | StrongTarget | SafeTarget`. Its
constructors share the fields `center`, `velocity`, `radius` and `alive`. Only
`StrongTarget` has a `lives` counter. `Explosions.Explosion` is a separate
datatype, because an explosion does not move. Coordinates are exact `real`s.
Every operation is a pure function that returns the updated entity. A hit
returns a pair: the updated target and the score delta.

Modules:

- `Config`: the numeric constants.
- `Geometry`: points and velocities.
- `FlyingObjects`: the sum type, `advance`, `is_off_screen` and the bullet.
- `Explosions`: the explosion and its star polygons.
- `Targets`: construction, `hit` and `explode`, plus lemmas about repeated
  hits. `Targets.HitTimes` is the helper behind those lemmas: n successive
  `hit` calls on one target, returning the final target and the deltas in
  order.

Two behaviours of the code that a reader might not expect:

- **Lives can go negative.** `Strong_Target.hit` has no guard. Hitting a
  strong target that is already dead takes its `lives` to -1, then -2, and so
  on, and each of these hits returns 1. The model reproduces this
  (`Targets.StrongNonLethalHits`) and claims no `lives >= 0` invariant.
- **Targets spawn at x = 0.** The constructors never set x, so it keeps the
  `Point()` default 0.

## Model

| member | source | states |
|---|---|---|
| FlyingObjects.Advance | skeet_classes.py:58-61 | the centre moves by exactly the velocity in each coordinate; velocity, radius, `alive`, lives and variant are unchanged |
| FlyingObjects.AdvanceTimes | skeet_classes.py:58-61 | after n frames the centre is the start plus n times the velocity; nothing else changes |
| FlyingObjects.IsOffScreen | skeet_classes.py:63-70 | off screen iff not (x <= width and 0 <= y <= height); once x <= width only y decides, so the left edge never counts |
| FlyingObjects.OffScreenExamples | skeet_classes.py:63-70 | on 600x500, (-5,250) and (600,250) are on screen; (601,250), (300,-1) and (300,501) are off screen |
| FlyingObjects.RightMoverLeaves | skeet_classes.py:58-70 | an object with dx >= 1 is off screen after any n frames with n > width - x |
| FlyingObjects.LeftDrifterStays | skeet_classes.py:58-70 | an on-screen object with dx <= 0 and dy = 0 is never reported off screen, however many frames pass |
| FlyingObjects.NewBullet | skeet_classes.py:78-83 | a new bullet is alive, at the origin, at rest, with radius 3 |
| FlyingObjects.Fire | skeet_classes.py:90-93 | firing changes only the velocity; the velocity has length 10 (the bullet speed) and its projection on the direction (cos, sin) is 10, so it is exactly 10 times (cos, sin) |
| FlyingObjects.FireAtZeroDegrees | skeet_classes.py:90-93 | firing at angle 0 gives velocity (10,0), and one frame moves the bullet from (0,0) to (10,0) |
| Explosions.NewExplosion | skeet_classes.py:172-185 | the explosion sits at the given point, has radius 30 and partial radius 10 (one third of the radius), and records the given start time |
| Explosions.AxisStar | skeet_classes.py:192-199 | 8 vertices; the first is the tip (-radius, 0) from the centre and the second the inner point (-partial, +partial); vertex i+4 is vertex i reflected through the centre; vertex i+2 is vertex i turned a quarter turn about the centre; with 0 <= partial <= radius every vertex lies within the square of half-side radius |
| Explosions.DiagonalStar | skeet_classes.py:201-208 | this is the axis star with the two radii exchanged; it has 8 centre-symmetric vertices, all within the square of half-side radius |
| Explosions.StarPolygons | skeet_classes.py:187-210 | the polygons drawn are the axis star and then the diagonal star of the explosion's centre and radii, so every vertex is placed; each has 8 vertices, all within the square of half-side radius around the centre |
| Targets.NewTarget | skeet_classes.py:98-105 | a standard target has radius 20, is alive, has x = 0 and y in [250,500], dx in [1,3] and dy in [-2,3], and is not off screen |
| Targets.NewStrongTarget | skeet_classes.py:124-132 | a strong target has radius 20 and 3 lives, is alive, has y in [250,500], the slower dx in [1,2] and dy in [-2,2], and is not off screen |
| Targets.NewSafeTarget | skeet_classes.py:151-156 | a safe target has radius 15, is alive, has y in [250,500], dx in [1,3] and dy in [-2,3], and is not off screen |
| Targets.TargetHit | skeet_classes.py:107-110 | the base hit kills the target from any state, scores 1 and changes nothing but `alive` |
| Targets.StrongHit | skeet_classes.py:141-148 | exactly one life is lost; the score is 5 iff the new count is 0, and then the target is dead; otherwise the score is 1 and `alive` is unchanged |
| Targets.SafeHit | skeet_classes.py:163-166 | the target ends as the base hit leaves it (dead), but the score is -10 whatever the prior state |
| Targets.Hit | skeet_classes.py:107-166 | a hit keeps the variant and the motion state and never revives a target; the target dies iff it was dead, is not strong, or is strong with 1 life left; the score is -10 iff safe, 5 iff strong with 1 life left, otherwise 1 |
| Targets.Explode | skeet_classes.py:113-116 | the explosion is centred on the target's current centre, with radius 30 and partial radius 10 |
| Targets.StrongNonLethalHits | skeet_classes.py:141-148 | n hits that never bring the count to exactly 0 each score 1 and leave the target with lives - n and the same `alive`, including hits after death, which drive lives below 0 |
| Targets.StrongLethalHit | skeet_classes.py:141-148 | a strong target with k >= 1 lives returns 1 on k - 1 hits and then 5, ending dead with 0 lives |
| Targets.FreshStrongTargetHits | skeet_classes.py:124-148 | a new strong target returns 1, 1, 5 on its first three hits, is alive after the first two, and is dead with 0 lives after the third |
| Targets.OneShotHits | skeet_classes.py:107-166 | a standard or safe target is dead after one hit, and every later hit returns the same delta (1, or -10 for safe) |
| Targets.HitCommutesWithAdvance | skeet_classes.py:58-166 | a hit after a frame of motion gives the same target and score as that frame after the hit |
| Targets.SpawnedTargetLeaves | skeet_classes.py:58-156 | every freshly constructed target, of any variant, is off screen after any n frames with n > 600 - x |
| Targets.ExplosionAroundTarget | skeet_classes.py:192-208 | both star polygons of a target's explosion lie within 30 of the target's centre on each axis, and each is symmetric through that centre |

## Left out

- Drawing: every `arcade.draw_*` call, the colours, and where `Strong_Target.draw` places its lives text. These are rendering through a library outside this model. Only the explosion's numeric point lists are kept.
- The random draws of the constructors: `random.uniform` becomes caller-supplied `y`, `dx` and `dy` that must lie in the drawn ranges. `Strong_Target` first draws a velocity through the base constructor and then overwrites it; that discarded first draw is not a parameter.
- FlyingObjects.Fire: the cosine, sine and degree-to-radian conversion come from the math library. The model takes the cosine and sine of the angle as inputs that satisfy cos² + sin² = 1. It does not model how they are computed from the angle.
- The wall clock `time.time()` in `Explosion.__init__`: it becomes the `startTime` / `now` parameter. Explosion expiry, collision detection, score totals and the per-frame game loop are not in `skeet_classes.py` and are not modelled.
- The rifle constants and colours: they are used only by rendering code.
- Floating-point rounding: coordinates are exact reals. The partial radius 30 / 3 is exactly 10 in both.
