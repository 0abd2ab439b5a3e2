/** Configuration constants of the skeet game (skeet_classes.py:11-32).
    Only the constants the modelled entity logic uses are kept. */
module Config {

  /** Screen bounds, in pixels. */
  const ScreenWidth: real := 600.0
  const ScreenHeight: real := 500.0

  const BulletRadius: real := 3.0
  const BulletSpeed: real := 10.0

  const TargetRadius: real := 20.0
  const TargetStrongLives: int := 3
  const TargetSafeRadius: real := 15.0

  const ExplosionRadius: real := 30.0
}
