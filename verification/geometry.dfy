/**
 * The gesture engine's pure helpers: the tuning constants, the classification
 * of a release velocity into one of four swipe directions, the velocity
 * between two timestamped pointer samples, and the overlay tint that shows
 * which way the card is being dragged.
 *
 * All arithmetic is over `real` (exact rationals). Times are milliseconds,
 * positions pixels, velocities pixels per second.
 */
module Geometry {

  /** Tuning constants of the widget. */
  const SnapBackDuration: real := 300.0  // milliseconds
  const MaxTilt: real := 5.0
  const BouncePower: real := 0.2
  const SwipeThreshold: real := 300.0    // pixels per second

  /** A 2D vector: pointer coordinates, a drag offset or a velocity. */
  datatype Vec = Vec(x: real, y: real)

  /** A pointer position stamped with the clock reading, in milliseconds. */
  datatype Sample = Sample(x: real, y: real, time: real)

  datatype Direction = Right | Left | Up | Down

  function Abs(v: real): (a: real)
    ensures a >= 0.0 && (a == v || a == -v)
  {
    if v < 0.0 then -v else v
  }

  /**
   * The direction of a swipe. The horizontal axis wins only when it is
   * strictly dominant; a tie, including the zero vector, goes to the
   * vertical axis, and a vertical component that is not positive means down.
   */
  function GetSwipeDirection(speed: Vec): (d: Direction)
    ensures d == Right <==> Abs(speed.x) > Abs(speed.y) && speed.x > 0.0
    ensures d == Left <==> Abs(speed.x) > Abs(speed.y) && speed.x < 0.0
    ensures d == Up <==> Abs(speed.x) <= Abs(speed.y) && speed.y > 0.0
    ensures d == Down <==> Abs(speed.x) <= Abs(speed.y) && speed.y <= 0.0
    ensures speed == Vec(0.0, 0.0) ==> d == Down
  {
    if Abs(speed.x) > Abs(speed.y) then
      (if speed.x > 0.0 then Right else Left)
    else
      (if speed.y > 0.0 then Up else Down)
  }

  /**
   * The velocity from sample `from` to sample `to`, in pixels per second.
   * The y axis is inverted: moving up the screen is a positive velocity.
   * Two samples with the same timestamp have no velocity (the division
   * would not be defined).
   */
  function CalcSpeed(from: Sample, to: Sample): (v: Vec)
    requires to.time != from.time
    ensures v.x * (to.time - from.time) == (to.x - from.x) * 1000.0
    ensures v.y * (to.time - from.time) == (from.y - to.y) * 1000.0
  {
    var dx := to.x - from.x;
    var dy := from.y - to.y;
    var dt := (to.time - from.time) / 1000.0;
    Vec(dx / dt, dy / dt)
  }

  /** An overlay colour: three 0-255 channels and an opacity. */
  datatype Rgba = Rgba(r: int, g: int, b: int, alpha: real)

  const Transparent: Rgba := Rgba(0, 0, 0, 0.0)

  /**
   * The tint over the card while it is dragged to horizontal position
   * `pos.x`: green to the right, red to the left, with an opacity that is the
   * fraction of the viewport width dragged; transparent exactly at rest.
   */
  function GetOverlayColor(pos: Vec, innerWidth: real): (c: Rgba)
    requires innerWidth > 0.0
    ensures c == Transparent <==> pos.x == 0.0
    ensures c.alpha * innerWidth == Abs(pos.x)
    ensures pos.x > 0.0 ==> c.r == 0 && c.g == 255 && c.b == 0
    ensures pos.x < 0.0 ==> c.r == 255 && c.g == 0 && c.b == 0
  {
    if pos.x > 0.0 then
      Rgba(0, 255, 0, Abs(innerWidth - (innerWidth - pos.x)) / innerWidth)
    else if pos.x < 0.0 then
      Rgba(255, 0, 0, Abs(innerWidth - (innerWidth - pos.x)) / innerWidth)
    else
      Transparent
  }
}
