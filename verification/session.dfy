/**
 * The gesture session controller of the swipeable card: the state that the
 * event handlers share (the one-shot release guard, the phase, the drag
 * offset, the last sample, the velocity), the release decision, the
 * programmatic swipe, and the observable effects they produce, recorded as an
 * event trace.
 *
 * The pure functions below say what one handler does to the state and which
 * effects it emits; the class `TinderCard` performs the handlers step by
 * step and is proved to agree with them.
 */
module Session {
  import opened Geometry
  import opened Animation
  import opened Classifier

  /** An observable effect: a callback, a style write or hiding the card. */
  datatype Event =
    | Dragged(write: DragWrite)          // a move wrote the transform and tint
    | OnSwipe(dir: Direction)            // the onSwipe callback
    | AnimatedOut(exit: ExitPlan)        // animateOut ran to completion
    | AnimatedBack(plan: BackPlan)       // animateBack started
    | Hidden                             // the card's display became none
    | OnCardLeftScreen(dir: Direction)   // the onCardLeftScreen callback

  /**
   * The component's properties. A callback that was not supplied is never
   * called, so it leaves no event.
   */
  datatype Config = Config(
    flickOnSwipe: bool,
    preventSwipe: seq<Direction>,
    hasOnSwipe: bool,
    hasOnCardLeftScreen: bool)

  /**
   * What the browser supplies when a card is animated: its current
   * transform, the diagonal of the page, the length of the velocity and a
   * draw of `Math.random()`.
   */
  datatype Readings = Readings(current: Transform, diagonal: real, speedNorm: real, random: real)

  /** The readings a browser would give for a card released at `speed`. */
  predicate ReadingsFor(rd: Readings, speed: Vec) {
    rd.diagonal >= 0.0 && rd.speedNorm >= 0.0 &&
    rd.speedNorm * rd.speedNorm == speed.x * speed.x + speed.y * speed.y
  }

  /** A release fast enough on either axis to count as a swipe. */
  predicate IsSwipe(speed: Vec) {
    Abs(speed.x) > SwipeThreshold || Abs(speed.y) > SwipeThreshold
  }

  /** A release that throws the card out rather than snapping it back. */
  predicate Exits(cfg: Config, speed: Vec) {
    IsSwipe(speed) && cfg.flickOnSwipe && GetSwipeDirection(speed) !in cfg.preventSwipe
  }

  lemma SwipeSpeedIsNonZero(speed: Vec, norm: real)
    requires IsSwipe(speed) && norm >= 0.0
    requires norm * norm == speed.x * speed.x + speed.y * speed.y
    ensures norm > 0.0
  {
    assert speed.x * speed.x > 0.0 || speed.y * speed.y > 0.0;
    assert speed.x * speed.x >= 0.0 && speed.y * speed.y >= 0.0;
  }

  function SwipeCallback(cfg: Config, dir: Direction): seq<Event> {
    if cfg.hasOnSwipe then [OnSwipe(dir)] else []
  }

  function LeftScreenCallback(cfg: Config, dir: Direction): seq<Event> {
    if cfg.hasOnCardLeftScreen then [OnCardLeftScreen(dir)] else []
  }

  /**
   * The events of a card thrown out in direction `dir` along `plan`: the
   * onSwipe report first, then the animation, then the card is hidden, and
   * only after that is onCardLeftScreen told the same direction.
   */
  function ThrowEffects(cfg: Config, dir: Direction, plan: ExitPlan): (es: seq<Event>)
    ensures |es| == 2 + (if cfg.hasOnSwipe then 1 else 0) + (if cfg.hasOnCardLeftScreen then 1 else 0)
    ensures cfg.hasOnSwipe ==> es[0] == OnSwipe(dir)
    // right after the optional onSwipe: the animation, then the card is hidden
    ensures var k := if cfg.hasOnSwipe then 1 else 0;
            es[k] == AnimatedOut(plan) && es[k + 1] == Hidden
    ensures forall e | e in es :: e == OnSwipe(dir) || e == AnimatedOut(plan) || e == Hidden || e == OnCardLeftScreen(dir)
    ensures OnSwipe(dir) in es <==> cfg.hasOnSwipe
    ensures OnCardLeftScreen(dir) in es <==> cfg.hasOnCardLeftScreen
    ensures cfg.hasOnCardLeftScreen ==> es[|es| - 2..] == [Hidden, OnCardLeftScreen(dir)]
    ensures !cfg.hasOnCardLeftScreen ==> es[|es| - 1] == Hidden
  {
    ThrowShape(cfg, dir, plan);
    SwipeCallback(cfg, dir) + [AnimatedOut(plan), Hidden] + LeftScreenCallback(cfg, dir)
  }

  lemma ThrowShape(cfg: Config, dir: Direction, plan: ExitPlan)
    ensures var es := SwipeCallback(cfg, dir) + [AnimatedOut(plan), Hidden] + LeftScreenCallback(cfg, dir);
            if cfg.hasOnSwipe && cfg.hasOnCardLeftScreen then es == [OnSwipe(dir), AnimatedOut(plan), Hidden, OnCardLeftScreen(dir)]
            else if cfg.hasOnSwipe then es == [OnSwipe(dir), AnimatedOut(plan), Hidden]
            else if cfg.hasOnCardLeftScreen then es == [AnimatedOut(plan), Hidden, OnCardLeftScreen(dir)]
            else es == [AnimatedOut(plan), Hidden]
  {
  }

  /**
   * The events of a card that snaps back after a release: onSwipe, if the
   * release was a swipe, and then the snap-back, never hiding the card nor
   * reporting that it left the screen.
   */
  function SnapBackEffects(cfg: Config, swiped: Option<Direction>, current: Transform): (es: seq<Event>)
    ensures |es| == 1 + (if swiped.Some? && cfg.hasOnSwipe then 1 else 0)
    ensures |es| >= 1 && es[|es| - 1] == AnimatedBack(AnimateBack(current))
    ensures Hidden !in es
    ensures forall e | e in es :: !e.OnCardLeftScreen? && !e.AnimatedOut?
    ensures swiped.Some? && cfg.hasOnSwipe ==> es[0] == OnSwipe(swiped.value)
    ensures forall e | e in es && e.OnSwipe? :: swiped == Some(e.dir)
    ensures swiped == None ==> es == [AnimatedBack(AnimateBack(current))]
  {
    var reported := if swiped.Some? then SwipeCallback(cfg, swiped.value) else [];
    assert reported == [] || reported == [OnSwipe(swiped.value)];
    reported + [AnimatedBack(AnimateBack(current))]
  }

  /** The exit animation of a release at a speed that counts as a swipe. */
  function ReleasePlan(speed: Vec, rd: Readings): ExitPlan
    requires ReadingsFor(rd, speed) && IsSwipe(speed)
  {
    SwipeSpeedIsNonZero(speed, rd.speedNorm);
    AnimateOut(rd.current, speed, rd.speedNorm, rd.diagonal, rd.random, false)
  }

  /**
   * The effects of a release at `speed` that the one-shot guard lets
   * through. A release below the threshold on both axes only snaps the card
   * back. A faster one reports its direction to onSwipe first; then, unless
   * flicking is off or the direction is prevented, the card is thrown out,
   * hidden, and onCardLeftScreen is told the same direction; otherwise it
   * snaps back and never reports leaving the screen.
   */
  function ReleaseEffects(cfg: Config, speed: Vec, rd: Readings): (es: seq<Event>)
    requires ReadingsFor(rd, speed)
    ensures !IsSwipe(speed) ==> es == [AnimatedBack(AnimateBack(rd.current))]
    ensures Exits(cfg, speed) ==> es == ThrowEffects(cfg, GetSwipeDirection(speed), ReleasePlan(speed, rd))
    ensures IsSwipe(speed) && !Exits(cfg, speed) ==>
              es == SnapBackEffects(cfg, Some(GetSwipeDirection(speed)), rd.current)
    ensures Hidden in es <==> Exits(cfg, speed)
  {
    if IsSwipe(speed) then
      var dir := GetSwipeDirection(speed);
      if cfg.flickOnSwipe && dir !in cfg.preventSwipe then
        ThrowEffects(cfg, dir, ReleasePlan(speed, rd))
      else
        SnapBackEffects(cfg, Some(dir), rd.current)
    else
      SnapBackEffects(cfg, None, rd.current)
  }

  /**
   * What the host sees of a release: onSwipe hears of the direction exactly
   * when the release is a swipe, before any other effect, and
   * onCardLeftScreen hears of the same direction exactly when the card is
   * thrown out.
   */
  lemma ReleaseCallbacks(cfg: Config, speed: Vec, rd: Readings)
    requires ReadingsFor(rd, speed)
    ensures var es, dir := ReleaseEffects(cfg, speed, rd), GetSwipeDirection(speed);
            (OnSwipe(dir) in es <==> IsSwipe(speed) && cfg.hasOnSwipe) &&
            (IsSwipe(speed) && cfg.hasOnSwipe ==> es[0] == OnSwipe(dir)) &&
            (OnCardLeftScreen(dir) in es <==> Exits(cfg, speed) && cfg.hasOnCardLeftScreen) &&
            (forall e | e in es && (e.OnSwipe? || e.OnCardLeftScreen?) :: e.dir == dir)
  {
  }

  // ---------------------------------------------------------------------
  // The programmatic swipe

  const SwipePower: real := 1000.0

  /** The sideways jitter of a programmatic swipe, from a random draw. */
  function Disturbance(r: real): real {
    (r - 0.5) * 100.0
  }

  /**
   * The velocity a programmatic swipe in direction `dir` is thrown with:
   * `SwipePower` along the direction, `disturbance` across it.
   */
  function SwipeVelocity(dir: Direction, disturbance: real): (v: Vec)
    ensures dir == Right ==> v.x == SwipePower
    ensures dir == Left ==> v.x == -SwipePower
    ensures dir == Up ==> v.y == SwipePower
    ensures dir == Down ==> v.y == -SwipePower
    ensures dir in {Right, Left} ==> v.y == disturbance
    ensures dir in {Up, Down} ==> v.x == disturbance
    ensures Abs(v.x) == SwipePower || Abs(v.y) == SwipePower
  {
    match dir
    case Right => Vec(SwipePower, disturbance)
    case Left => Vec(-SwipePower, disturbance)
    case Up => Vec(disturbance, SwipePower)
    case Down => Vec(disturbance, -SwipePower)
  }

  /**
   * For any draw in [0, 1) the synthesised velocity is one that an input
   * driven release would classify as a swipe in the requested direction.
   */
  lemma SwipeVelocityIsAFlick(dir: Direction, jitter: real)
    requires 0.0 <= jitter < 1.0
    ensures IsSwipe(SwipeVelocity(dir, Disturbance(jitter)))
    ensures GetSwipeDirection(SwipeVelocity(dir, Disturbance(jitter))) == dir
  {
  }

  lemma SwipeVelocityIsNonZero(v: Vec, norm: real)
    requires Abs(v.x) == SwipePower || Abs(v.y) == SwipePower
    requires norm >= 0.0 && norm * norm == v.x * v.x + v.y * v.y
    ensures norm > 0.0
  {
    assert v.x * v.x >= 0.0 && v.y * v.y >= 0.0;
    assert v.x * v.x == SwipePower * SwipePower || v.y * v.y == SwipePower * SwipePower;
  }

  /** The exit animation of `swipe(dir)`, with the plain easing. */
  function SwipePlan(dir: Direction, jitter: real, rd: Readings): (p: ExitPlan)
    requires ReadingsFor(rd, SwipeVelocity(dir, Disturbance(jitter)))
    ensures p.easing == Ease
  {
    var velocity := SwipeVelocity(dir, Disturbance(jitter));
    SwipeVelocityIsNonZero(velocity, rd.speedNorm);
    AnimateOut(rd.current, velocity, rd.speedNorm, rd.diagonal, rd.random, true)
  }

  /**
   * The effects of `swipe(dir)`: the card is thrown out in direction `dir`
   * whatever the release guard, `flickOnSwipe` or `preventSwipe` say.
   */
  function SwipeEffects(cfg: Config, dir: Direction, jitter: real, rd: Readings): (es: seq<Event>)
    requires ReadingsFor(rd, SwipeVelocity(dir, Disturbance(jitter)))
    ensures Hidden in es && AnimatedOut(SwipePlan(dir, jitter, rd)) in es
    // right after the optional onSwipe: the animation, then the card is hidden
    ensures var k := if cfg.hasOnSwipe then 1 else 0;
            |es| == 2 + k + (if cfg.hasOnCardLeftScreen then 1 else 0) &&
            es[k] == AnimatedOut(SwipePlan(dir, jitter, rd)) && es[k + 1] == Hidden
    ensures cfg.hasOnSwipe ==> es[0] == OnSwipe(dir)
    ensures cfg.hasOnCardLeftScreen ==> es[|es| - 1] == OnCardLeftScreen(dir)
    ensures OnSwipe(dir) in es <==> cfg.hasOnSwipe
    ensures OnCardLeftScreen(dir) in es <==> cfg.hasOnCardLeftScreen
  {
    ThrowEffects(cfg, dir, SwipePlan(dir, jitter, rd))
  }

  /**
   * A programmatic swipe does not consult `flickOnSwipe` or `preventSwipe`:
   * a card configured never to fly out, or to refuse this direction, is
   * thrown out all the same.
   */
  lemma SwipeIgnoresFlickSettings(cfg: Config, dir: Direction, jitter: real, rd: Readings, flick: bool, prevent: seq<Direction>)
    requires ReadingsFor(rd, SwipeVelocity(dir, Disturbance(jitter)))
    ensures SwipeEffects(cfg, dir, jitter, rd)
              == SwipeEffects(cfg.(flickOnSwipe := flick, preventSwipe := prevent), dir, jitter, rd)
  {
  }

  /** The callbacks the host sees, in order, with the style effects removed. */
  function Callbacks(es: seq<Event>): (cs: seq<Event>)
    ensures |cs| <= |es|
    ensures forall e | e in cs :: e in es && (e.OnSwipe? || e.OnCardLeftScreen?)
  {
    if es == [] then []
    else if es[0].OnSwipe? || es[0].OnCardLeftScreen? then [es[0]] + Callbacks(es[1..])
    else Callbacks(es[1..])
  }

  lemma {:induction false} CallbacksAppend(a: seq<Event>, b: seq<Event>)
    ensures Callbacks(a + b) == Callbacks(a) + Callbacks(b)
  {
    if a != [] {
      assert (a + b)[1..] == a[1..] + b;
      CallbacksAppend(a[1..], b);
    } else {
      assert a + b == b;
    }
  }

  /**
   * However a card is thrown out, the host hears onSwipe and then
   * onCardLeftScreen, both with the throw's direction, and nothing else.
   */
  lemma ThrowCallbacks(cfg: Config, dir: Direction, plan: ExitPlan)
    ensures Callbacks(ThrowEffects(cfg, dir, plan)) == SwipeCallback(cfg, dir) + LeftScreenCallback(cfg, dir)
  {
    var swiped, out, left := SwipeCallback(cfg, dir), [AnimatedOut(plan), Hidden], LeftScreenCallback(cfg, dir);
    assert Callbacks(swiped) == swiped;
    assert Callbacks(left) == left;
    assert Callbacks(out[1..]) == [];
    CallbacksAppend(swiped, out);
    CallbacksAppend(swiped + out, left);
  }

  /**
   * A programmatic swipe and a release that throws the card out in the same
   * direction show the host the same callbacks in the same order.
   */
  lemma SwipeMatchesFlick(cfg: Config, speed: Vec, rd: Readings, jitter: real, rd': Readings)
    requires ReadingsFor(rd, speed) && Exits(cfg, speed)
    requires ReadingsFor(rd', SwipeVelocity(GetSwipeDirection(speed), Disturbance(jitter)))
    ensures Callbacks(SwipeEffects(cfg, GetSwipeDirection(speed), jitter, rd'))
         == Callbacks(ReleaseEffects(cfg, speed, rd))
         == SwipeCallback(cfg, GetSwipeDirection(speed)) + LeftScreenCallback(cfg, GetSwipeDirection(speed))
  {
    var dir := GetSwipeDirection(speed);
    ThrowCallbacks(cfg, dir, ReleasePlan(speed, rd));
    ThrowCallbacks(cfg, dir, SwipePlan(dir, jitter, rd'));
  }


  // ---------------------------------------------------------------------
  // Moves

  /** The state the move handlers read and write. */
  datatype Gesture = Gesture(phase: Phase, offset: Vec, last: Sample, speed: Vec)

  /**
   * The velocity the move handlers store after a move from `last` to the
   * sample the classifier kept. When the classifier kept `last` itself the
   * source divides 0 by 0; the resulting not-a-number fails every threshold
   * comparison at release, exactly as the zero vector does, so it is
   * represented by the zero vector.
   */
  function SpeedAfterMove(last: Sample, kept: Sample): (v: Vec)
    ensures kept == last ==> v == Vec(0.0, 0.0)
    ensures kept.time != last.time ==> v == CalcSpeed(last, kept)
  {
    if kept.time == last.time then Vec(0.0, 0.0) else CalcSpeed(last, kept)
  }

  /** A pointer position reported by a move event, with its clock reading. */
  datatype Touch = Touch(at: Vec, time: real)

  /**
   * The shared part of the touch and mouse move handlers: classify the move,
   * emit the style write if there is one, and store the new last sample,
   * velocity and phase.
   */
  function ClassifyMove(g: Gesture, at: Vec, now: real, innerWidth: real): (r: (Gesture, seq<Event>))
    requires WritesTransform(at, g.offset, g.last, g.phase) ==> now != g.last.time
    requires innerWidth > 0.0
    ensures r.0.offset == g.offset
    ensures r.0.last == g.last || r.0.last.time == now
    ensures g.phase == ScrollStarted ==> r == (g.(speed := Vec(0.0, 0.0)), [])
    ensures r.1 != [] <==> r.0.phase == SwipeStarted
    ensures r.0.phase == SwipeStarted ==>
              |r.1| == 1 && r.1[0].Dragged? && r.0.last.time == now &&
              r.0.speed.x * (now - g.last.time) == (at.x + g.offset.x - g.last.x) * 1000.0 &&
              now != g.last.time && r.0.speed == CalcSpeed(g.last, r.0.last) &&
              r.0.last == Sample(at.x + g.offset.x, 0.0, now)
    ensures r.0.phase != SwipeStarted ==> r.0.last == g.last && r.0.speed == Vec(0.0, 0.0)
    ensures r.0.phase == Noop ==> g.phase == Noop
  {
    var o := DragableTouchmove(at, g.offset, g.last, g.phase, now, innerWidth);
    (Gesture(o.phase, g.offset, o.location, SpeedAfterMove(g.last, o.location)),
     if o.write.Some? then [Dragged(o.write.value)] else [])
  }

  /**
   * The touch move handler. Once a scroll has started, a move only forgets
   * the velocity and resets the last sample to the origin at the current
   * time; otherwise it classifies the move.
   */
  function TouchMoveStep(g: Gesture, at: Vec, now: real, innerWidth: real): (r: (Gesture, seq<Event>))
    requires WritesTransform(at, g.offset, g.last, g.phase) ==> now != g.last.time
    requires innerWidth > 0.0
    ensures r.0.offset == g.offset
    ensures r.0.last == g.last || r.0.last.time == now
    ensures g.phase == ScrollStarted ==>
              r.0.phase == ScrollStarted && r.1 == [] &&
              r.0.last == Sample(0.0, 0.0, now) && r.0.speed == Vec(0.0, 0.0)
    ensures g.phase != ScrollStarted ==> r == ClassifyMove(g, at, now, innerWidth)
    ensures r.1 != [] <==> r.0.phase == SwipeStarted
    ensures r.0.phase == Noop ==> g.phase == Noop
  {
    if g.phase == ScrollStarted then
      (g.(last := Sample(0.0, 0.0, now), speed := Vec(0.0, 0.0)), [])
    else
      ClassifyMove(g, at, now, innerWidth)
  }

  /** Each move is later than the one before it, the first later than `after`. */
  predicate Chronological(after: real, moves: seq<Touch>)
    decreases |moves|
  {
    moves == [] || (moves[0].time > after && Chronological(moves[0].time, moves[1..]))
  }

  lemma ChronologicalFromEarlier(earlier: real, after: real, moves: seq<Touch>)
    requires earlier <= after && Chronological(after, moves)
    ensures Chronological(earlier, moves)
  {
  }

  /** A run of touch moves: the final state and every effect, in order. */
  function TouchMoves(g: Gesture, moves: seq<Touch>, innerWidth: real): (r: (Gesture, seq<Event>))
    requires Chronological(g.last.time, moves)
    requires innerWidth > 0.0
    ensures r.0.offset == g.offset
    decreases |moves|
  {
    if moves == [] then (g, [])
    else
      var step := TouchMoveStep(g, moves[0].at, moves[0].time, innerWidth);
      ChronologicalFromEarlier(step.0.last.time, moves[0].time, moves[1..]);
      var rest := TouchMoves(step.0, moves[1..], innerWidth);
      (rest.0, step.1 + rest.1)
  }

  /**
   * The gesture state the move handlers keep is level: the last sample has
   * y = 0 and so the stored velocity has no vertical part.
   */
  predicate Level(g: Gesture) {
    g.last.y == 0.0 && g.speed.y == 0.0
  }

  /** A single touch or mouse move keeps the gesture state level. */
  lemma MoveKeepsLevel(g: Gesture, at: Vec, now: real, innerWidth: real)
    requires WritesTransform(at, g.offset, g.last, g.phase) ==> now != g.last.time
    requires innerWidth > 0.0 && Level(g)
    ensures Level(TouchMoveStep(g, at, now, innerWidth).0)
    ensures Level(ClassifyMove(g, at, now, innerWidth).0)
  {
    var r := ClassifyMove(g, at, now, innerWidth).0;
    if r.phase == SwipeStarted {
      assert r.speed.y * (now - g.last.time) == 0.0;
    }
  }

  /**
   * However the pointer travels, the velocity a run of moves leaves behind
   * is horizontal, so a release driven by the pointer is only ever a swipe
   * to the right or to the left; up and down are reached only through
   * `swipe(dir)`.
   */
  lemma {:induction false} MovesReleaseHorizontally(g: Gesture, moves: seq<Touch>, innerWidth: real)
    requires Chronological(g.last.time, moves) && innerWidth > 0.0
    requires Level(g)
    ensures Level(TouchMoves(g, moves, innerWidth).0)
    ensures var v := TouchMoves(g, moves, innerWidth).0.speed;
            IsSwipe(v) ==> GetSwipeDirection(v) == Right || GetSwipeDirection(v) == Left
    decreases |moves|
  {
    if moves != [] {
      var step := TouchMoveStep(g, moves[0].at, moves[0].time, innerWidth);
      MoveKeepsLevel(g, moves[0].at, moves[0].time, innerWidth);
      ChronologicalFromEarlier(step.0.last.time, moves[0].time, moves[1..]);
      MovesReleaseHorizontally(step.0, moves[1..], innerWidth);
    }
  }

  /**
   * A gesture that has become a scroll stays one for the rest of the
   * interaction and never moves the card, however far the pointer then
   * travels sideways.
   */
  lemma {:induction false} ScrollIsAbsorbing(g: Gesture, moves: seq<Touch>, innerWidth: real)
    requires Chronological(g.last.time, moves) && innerWidth > 0.0
    requires g.phase == ScrollStarted
    ensures TouchMoves(g, moves, innerWidth).0.phase == ScrollStarted
    ensures TouchMoves(g, moves, innerWidth).1 == []
    decreases |moves|
  {
    if moves != [] {
      var step := TouchMoveStep(g, moves[0].at, moves[0].time, innerWidth);
      ChronologicalFromEarlier(step.0.last.time, moves[0].time, moves[1..]);
      ScrollIsAbsorbing(step.0, moves[1..], innerWidth);
    }
  }

  /**
   * A gesture that has become a swipe stays one, and every later move drags
   * the card; the last sample is then the last move's horizontal position.
   */
  lemma {:induction false} SwipeIsAbsorbing(g: Gesture, moves: seq<Touch>, innerWidth: real)
    requires Chronological(g.last.time, moves) && innerWidth > 0.0
    requires g.phase == SwipeStarted
    ensures TouchMoves(g, moves, innerWidth).0.phase == SwipeStarted
    ensures |TouchMoves(g, moves, innerWidth).1| == |moves|
    ensures forall e | e in TouchMoves(g, moves, innerWidth).1 :: e.Dragged?
    ensures moves != [] ==>
              var m := moves[|moves| - 1];
              TouchMoves(g, moves, innerWidth).0.last == Sample(m.at.x + g.offset.x, 0.0, m.time)
    decreases |moves|
  {
    if moves != [] {
      var step := TouchMoveStep(g, moves[0].at, moves[0].time, innerWidth);
      ChronologicalFromEarlier(step.0.last.time, moves[0].time, moves[1..]);
      SwipeIsAbsorbing(step.0, moves[1..], innerWidth);
    }
  }

  /**
   * Phases only move forward within an interaction: a run that ends with no
   * phase started also began with none, and dragged nothing.
   */
  lemma {:induction false} NoopOnlyFromNoop(g: Gesture, moves: seq<Touch>, innerWidth: real)
    requires Chronological(g.last.time, moves) && innerWidth > 0.0
    requires TouchMoves(g, moves, innerWidth).0.phase == Noop
    ensures g.phase == Noop
    ensures TouchMoves(g, moves, innerWidth).1 == []
    decreases |moves|
  {
    if moves != [] {
      var step := TouchMoveStep(g, moves[0].at, moves[0].time, innerWidth);
      ChronologicalFromEarlier(step.0.last.time, moves[0].time, moves[1..]);
      NoopOnlyFromNoop(step.0, moves[1..], innerWidth);
    }
  }

  // ---------------------------------------------------------------------
  // The card

  class TinderCard {
    const cfg: Config
    var released: bool        // the one-shot release guard
    var phase: Phase          // the operation in progress
    var offset: Vec
    var lastLocation: Sample
    var speed: Vec
    var mouseIsClicked: bool
    var trace: seq<Event>     // every effect so far, oldest first

    function Current(): Gesture
      reads this
    {
      Gesture(phase, offset, lastLocation, speed)
    }

    /**
     * A freshly mounted card. The offset starts unset, which the source's
     * arithmetic reads as 0; the last sample is the origin at mount time.
     */
    constructor (cfg: Config, mountTime: real)
      ensures this.cfg == cfg && !released && phase == Noop
      ensures offset == Vec(0.0, 0.0) && lastLocation == Sample(0.0, 0.0, mountTime)
      ensures speed == Vec(0.0, 0.0) && !mouseIsClicked && trace == []
    {
      this.cfg := cfg;
      released := false;
      phase := Noop;
      offset := Vec(0.0, 0.0);
      lastLocation := Sample(0.0, 0.0, mountTime);
      speed := Vec(0.0, 0.0);
      mouseIsClicked := false;
      trace := [];
    }

    /** Re-arms the release guard for a new interaction. */
    method HandleSwipeStart()
      modifies this`released
      ensures !released
    {
      released := false;
    }

    /**
     * Releases the card at `speed`, at most once per interaction: the first
     * call after `HandleSwipeStart` sets the guard and emits the release
     * effects; any later call changes nothing.
     */
    method HandleSwipeReleased(speed: Vec, rd: Readings)
      requires !released ==> ReadingsFor(rd, speed)
      modifies this`released, this`trace
      ensures released
      ensures trace == old(trace) + (if old(released) then [] else ReleaseEffects(cfg, speed, rd))
    {
      if released {
        return;
      }
      released := true;
      ghost var before := trace;
      ghost var swiped: Option<Direction> := None;
      if IsSwipe(speed) {
        var dir := GetSwipeDirection(speed);
        swiped := Some(dir);
        if cfg.hasOnSwipe {
          trace := trace + [OnSwipe(dir)];
        }
        assert trace == before + SwipeCallback(cfg, dir);
        if cfg.flickOnSwipe && dir !in cfg.preventSwipe {
          var plan := ReleasePlan(speed, rd);
          trace := trace + [AnimatedOut(plan)];
          trace := trace + [Hidden];
          if cfg.hasOnCardLeftScreen {
            trace := trace + [OnCardLeftScreen(dir)];
          }
          assert trace == before + (SwipeCallback(cfg, dir) + [AnimatedOut(plan), Hidden] + LeftScreenCallback(cfg, dir));
          return;
        }
      }
      trace := trace + [AnimatedBack(AnimateBack(rd.current))];
      assert trace == before + SnapBackEffects(cfg, swiped, rd.current);
    }

    /** A touch begins: re-arm the guard and anchor the drag at the touch. */
    method TouchStart(touch: Vec)
      modifies this`released, this`offset
      ensures !released && offset == Vec(-touch.x, -touch.y)
    {
      HandleSwipeStart();
      offset := Vec(-touch.x, -touch.y);
    }

    /** The mouse button goes down: as `TouchStart`, and the mouse is held. */
    method MouseDown(pointer: Vec)
      modifies this`released, this`offset, this`mouseIsClicked
      ensures !released && mouseIsClicked && offset == Vec(-pointer.x, -pointer.y)
    {
      mouseIsClicked := true;
      HandleSwipeStart();
      offset := Vec(-pointer.x, -pointer.y);
    }

    method TouchMove(touch: Vec, now: real, innerWidth: real)
      requires WritesTransform(touch, offset, lastLocation, phase) ==> now != lastLocation.time
      requires innerWidth > 0.0
      modifies this`phase, this`lastLocation, this`speed, this`trace
      ensures Current() == TouchMoveStep(old(Current()), touch, now, innerWidth).0
      ensures trace == old(trace) + TouchMoveStep(old(Current()), touch, now, innerWidth).1
    {
      if phase == ScrollStarted {
        speed := Vec(0.0, 0.0);
        lastLocation := Sample(0.0, 0.0, now);
        return;
      }
      var o := DragableTouchmove(touch, offset, lastLocation, phase, now, innerWidth);
      if o.write.Some? {
        trace := trace + [Dragged(o.write.value)];
      }
      speed := SpeedAfterMove(lastLocation, o.location);
      lastLocation := o.location;
      phase := o.phase;
    }

    /** A mouse move is classified only while the button is held. */
    method MouseMove(pointer: Vec, now: real, innerWidth: real)
      requires mouseIsClicked && WritesTransform(pointer, offset, lastLocation, phase) ==> now != lastLocation.time
      requires innerWidth > 0.0
      modifies this`phase, this`lastLocation, this`speed, this`trace
      ensures !old(mouseIsClicked) ==> Current() == old(Current()) && trace == old(trace)
      ensures old(mouseIsClicked) ==>
                Current() == ClassifyMove(old(Current()), pointer, now, innerWidth).0 &&
                trace == old(trace) + ClassifyMove(old(Current()), pointer, now, innerWidth).1
    {
      if mouseIsClicked {
        var o := DragableTouchmove(pointer, offset, lastLocation, phase, now, innerWidth);
        if o.write.Some? {
          trace := trace + [Dragged(o.write.value)];
        }
        speed := SpeedAfterMove(lastLocation, o.location);
        lastLocation := o.location;
        phase := o.phase;
      }
    }

    /**
     * A touch ends: only a swipe in progress is released; whatever the
     * phase was, none is in progress afterwards.
     */
    method TouchEnd(rd: Readings)
      requires phase == SwipeStarted && !released ==> ReadingsFor(rd, speed)
      modifies this`phase, this`released, this`trace
      ensures phase == Noop
      ensures released == (old(released) || old(phase) == SwipeStarted)
      ensures trace == old(trace) +
                (if old(phase) == SwipeStarted && !old(released)
                 then ReleaseEffects(cfg, speed, rd) else [])
    {
      if phase == SwipeStarted {
        HandleSwipeReleased(speed, rd);
      }
      phase := Noop;
    }

    /**
     * The mouse button is released or leaves the card while held: the card
     * is released whatever the phase, and the phase is left as it is.
     */
    method MouseUp(rd: Readings)
      requires mouseIsClicked && !released ==> ReadingsFor(rd, speed)
      modifies this`mouseIsClicked, this`released, this`trace
      ensures !mouseIsClicked
      ensures released == (old(released) || old(mouseIsClicked))
      ensures trace == old(trace) +
                (if old(mouseIsClicked) && !old(released)
                 then ReleaseEffects(cfg, speed, rd) else [])
    {
      if mouseIsClicked {
        mouseIsClicked := false;
        HandleSwipeReleased(speed, rd);
      }
    }

    /**
     * `swipe(dir)`: throws the card out in direction `dir` with a jitter
     * drawn from `jitter`, leaving the gesture state and the guard alone.
     */
    method Swipe(jitter: real, rd: Readings, dir: Direction := Right)
      requires ReadingsFor(rd, SwipeVelocity(dir, Disturbance(jitter)))
      modifies this`trace
      ensures trace == old(trace) + SwipeEffects(cfg, dir, jitter, rd)
    {
      ghost var before := trace;
      if cfg.hasOnSwipe {
        trace := trace + [OnSwipe(dir)];
      }
      assert trace == before + SwipeCallback(cfg, dir);
      var power := SwipePower;
      var disturbance := (jitter - 0.5) * 100.0;
      var velocity: Vec;
      if dir == Right {
        velocity := Vec(power, disturbance);
      } else if dir == Left {
        velocity := Vec(-power, disturbance);
      } else if dir == Up {
        velocity := Vec(disturbance, power);
      } else {
        velocity := Vec(disturbance, -power);
      }
      assert velocity == SwipeVelocity(dir, Disturbance(jitter));
      var plan := AnimateOut(rd.current, velocity, rd.speedNorm, rd.diagonal, rd.random, true);
      assert plan == SwipePlan(dir, jitter, rd);
      trace := trace + [AnimatedOut(plan)];
      trace := trace + [Hidden];
      if cfg.hasOnCardLeftScreen {
        trace := trace + [OnCardLeftScreen(dir)];
      }
      assert trace == before + (SwipeCallback(cfg, dir) + [AnimatedOut(plan), Hidden] + LeftScreenCallback(cfg, dir));
    }
  }

  /**
   * A duplicated release event: the second release before a new interaction
   * starts adds nothing, so the release logic runs exactly once.
   */
  method ReleaseTwice(card: TinderCard, speed: Vec, rd: Readings)
    requires !card.released && ReadingsFor(rd, speed)
    modifies card`released, card`trace
    ensures card.released
    ensures card.trace == old(card.trace) + ReleaseEffects(card.cfg, speed, rd)
  {
    card.HandleSwipeReleased(speed, rd);
    card.HandleSwipeReleased(speed, rd);
  }
}
