/**
 * The two animations that end a gesture, reduced to the transform they aim
 * at and their timing. `animateBack` springs the card a little past its rest
 * position and then forces it to rest; `animateOut` throws it along the
 * release velocity far enough to leave the viewport.
 *
 * What the browser supplies (the current translation and rotation, the
 * viewport diagonal, the length of the velocity, `Math.random()`) is taken
 * as parameters; square roots are replaced by a parameter together with
 * the equation it satisfies.
 */
module Animation {
  import opened Geometry

  /** The card's visual state: translation in pixels and rotation in degrees. */
  datatype Transform = Transform(x: real, y: real, rot: real)

  const Rest: Transform := Transform(0.0, 0.0, 0.0)

  /**
   * The snap-back: the card moves to the bounce target over the snap-back
   * duration, is forced to `Rest` once three quarters of it have passed, and
   * at the full duration the transition is shortened for the next gesture.
   */
  datatype BackPlan = BackPlan(bounce: Transform, restAfterMs: real, resetTransitionAfterMs: real)

  function Bounce(v: real): real {
    v * -BouncePower
  }

  /**
   * The bounce target mirrors the current displacement and tilt through the
   * rest position at one fifth of their size, and the card reaches rest
   * before the transition is reset.
   */
  function AnimateBack(current: Transform): (p: BackPlan)
    ensures p.bounce.x * 5.0 == -current.x
    ensures p.bounce.y * 5.0 == -current.y
    ensures p.bounce.rot * 5.0 == -current.rot
    ensures p.bounce == Rest <==> current == Rest
    ensures p.restAfterMs == SnapBackDuration * 0.75
    ensures 0.0 < p.restAfterMs < p.resetTransitionAfterMs == SnapBackDuration
  {
    BackPlan(
      Transform(Bounce(current.x), Bounce(current.y), Bounce(current.rot)),
      SnapBackDuration * 0.75,
      SnapBackDuration)
  }

  datatype Easing = Ease | EaseOut

  /**
   * The throw-out: the card moves to `target` over `seconds` with the given
   * easing, and the overlay tint is cleared at once.
   */
  datatype ExitPlan = ExitPlan(target: Transform, seconds: real, easing: Easing)

  const RotationPower: real := 200.0

  /**
   * The final tilt of a thrown card, from its current tilt `rot` and a
   * random draw `r`: an untilted card gets a tilt either way, a tilted one
   * keeps turning the way it already leans.
   */
  function ExitRotation(rot: real, r: real): real {
    if rot == 0.0 then (r - 0.5) * RotationPower
    else if rot > 0.0 then (r * RotationPower) / 2.0 + rot
    else ((r - 1.0) * RotationPower) / 2.0 + rot
  }

  /**
   * The exit animation for release velocity `speed` whose length is `norm`,
   * in a viewport whose diagonal is `diagonal`. The duration is the time the
   * velocity needs to cover the diagonal; the translation moves along the
   * velocity (screen y pointing down) from the current position; `easeIn`
   * selects the plain easing used by programmatic swipes.
   */
  function AnimateOut(current: Transform, speed: Vec, norm: real, diagonal: real, r: real, easeIn: bool): (p: ExitPlan)
    requires norm > 0.0 && norm * norm == speed.x * speed.x + speed.y * speed.y
    requires diagonal >= 0.0
    ensures p.seconds >= 0.0 && p.seconds * norm == diagonal
    // the card moves along the velocity (screen y pointing down), the
    // diagonal's length for every unit of speed
    ensures (p.target.x - current.x) * norm == speed.x * diagonal
    ensures (p.target.y - current.y) * norm == -speed.y * diagonal
    ensures p.target.rot == ExitRotation(current.rot, r)
    ensures p.easing == (if easeIn then Ease else EaseOut)
    ensures diagonal > 0.0 ==>
              (speed.x > 0.0 <==> p.target.x > current.x) &&
              (speed.x < 0.0 <==> p.target.x < current.x) &&
              (speed.y > 0.0 <==> p.target.y < current.y) &&
              (speed.y < 0.0 <==> p.target.y > current.y)
  {
    var time := diagonal / norm;
    var multiplier := diagonal / norm;
    ExitPlan(
      Transform(speed.x * multiplier + current.x,
                -speed.y * multiplier + current.y,
                ExitRotation(current.rot, r)),
      time,
      if easeIn then Ease else EaseOut)
  }

  /**
   * The thrown card travels exactly the viewport diagonal, whatever the
   * direction of the release, so it always clears the visible area.
   */
  lemma ExitTravelsDiagonal(current: Transform, speed: Vec, norm: real, diagonal: real, r: real, easeIn: bool)
    requires norm > 0.0 && norm * norm == speed.x * speed.x + speed.y * speed.y
    requires diagonal >= 0.0
    ensures var t := AnimateOut(current, speed, norm, diagonal, r, easeIn).target;
            (t.x - current.x) * (t.x - current.x) + (t.y - current.y) * (t.y - current.y)
              == diagonal * diagonal
  {
  }

  /** Doubling the release speed halves the duration of the throw. */
  lemma ExitDurationInverseToSpeed(current: Transform, speed: Vec, norm: real, diagonal: real, r: real)
    requires norm > 0.0 && norm * norm == speed.x * speed.x + speed.y * speed.y
    requires diagonal >= 0.0
    ensures var fast := Vec(2.0 * speed.x, 2.0 * speed.y);
            (2.0 * norm) * (2.0 * norm) == fast.x * fast.x + fast.y * fast.y &&
            AnimateOut(current, fast, 2.0 * norm, diagonal, r, false).seconds * 2.0
              == AnimateOut(current, speed, norm, diagonal, r, false).seconds
  {
  }

  /**
   * For a draw `r` in [0, 1) the final tilt keeps the sign of a non-zero
   * current tilt and turns at most 100 degrees further; an untilted card ends
   * within 100 degrees either way.
   */
  lemma ExitRotationBias(rot: real, r: real)
    requires 0.0 <= r < 1.0
    ensures rot == 0.0 ==> -100.0 <= ExitRotation(rot, r) < 100.0
    ensures rot > 0.0 ==> rot <= ExitRotation(rot, r) < rot + 100.0
    ensures rot < 0.0 ==> rot - 100.0 <= ExitRotation(rot, r) < rot
  {
  }
}
