# Swipeable card gesture engine, modelled in Dafny

This project models the decision logic of the `TinderCard` widget (`index.js`): a card that follows a
horizontal drag, tells a swipe from a page scroll, and on release either throws the card off the
screen or springs it back, reporting the swipe direction to the host through the `onSwipe` and
`onCardLeftScreen` callbacks. The DOM, the timers and the browser's geometry queries are removed;
what remains is stated over exact rationals (`real`) and proved.

Modules, leaf first:

- `Geometry` (`geometry.dfy`): the tuning constants, `GetSwipeDirection`, `CalcSpeed` and
  `GetOverlayColor`.
- `Animation` (`animation.dfy`): the targets and timing of `animateBack` and `animateOut`.
- `Classifier` (`classifier.dfy`): `dragableTouchmove`, the per-move phase machine over the
  phases `Noop`, `SwipeStarted` and `ScrollStarted`. Its style writes are an output value.
- `Session` (`session.dfy`): the controller. The pure functions `ReleaseEffects`,
  `SwipeEffects` and `TouchMoveStep` say what each handler does. The class `TinderCard` holds the
  handlers' shared state (`released`, `phase`, `offset`, `lastLocation`, `speed`,
  `mouseIsClicked`) and an event `trace` of every effect. The release, move and swipe handlers are
  methods proved to agree with those functions; the start handlers state their new fields directly.
  `TouchMoves` folds a whole drag, and lemmas about it state what holds across an interaction.

Values the browser supplies are parameters:
- the clock reading of a move (`now`);
- `window.innerWidth`;
- the current translation and rotation of the card;
- the page diagonal and the length of the velocity;
- the `Math.random()` draws.

Each square root is a parameter together with the equation it satisfies
(`speedNorm * speedNorm == x * x + y * y`).

Two choices follow the code where a reader might expect otherwise:
- A tie `|x| == |y|` in `getSwipeDirection` goes to the vertical axis, not the horizontal one.
  The zero vector is therefore `Down`.
- The dragged position always has y = 0 (index.js:162-166), and so does every last sample the
  handlers store (index.js:302, 327). The stored velocity therefore has no vertical part, and a
  release driven by the pointer is only ever a swipe to the right or to the left
  (`Session.MovesReleaseHorizontally`), even though a vertical flick might be expected to count
  too. Up and down are reached only through `swipe(dir)`, which ignores `preventSwipe`, so
  `preventSwipe` entries for up and down never have an effect.
- Nothing in the code guards the divisions against a zero elapsed time. The model instead
  requires a distinct timestamp wherever the code's result would otherwise be infinite or
  not-a-number and would then be used.

## Model

| member | source | states |
|---|---|---|
| `Geometry.GetSwipeDirection` | index.js:115-121 | right/left exactly when abs(x) > abs(y), by the sign of x; otherwise up/down by the sign of y; ties and the zero vector go vertical, `(0,0)` is down |
| `Geometry.CalcSpeed` | index.js:123-128 | velocity times elapsed milliseconds is 1000 times the displacement, with y inverted (`from.y - to.y`); requires distinct timestamps |
| `Geometry.GetOverlayColor` | index.js:16-38 | transparent exactly when `pos.x = 0`; green to the right, red to the left; opacity times `innerWidth` equals abs(pos.x) |
| `Animation.AnimateBack` | index.js:94-113 | the bounce target is `-1/5` of the current translation and rotation, rest only when the card was at rest; forced to rest after 225 ms (three quarters of the duration), before the 300 ms transition reset |
| `Animation.AnimateOut` | index.js:53-92 | duration times speed length equals the diagonal; the target's displacement times the speed length is the velocity times the diagonal, with screen y inverted, so the card moves along the velocity; the final tilt is `ExitRotation` of the current tilt and the draw; `easeIn` selects `ease`, otherwise `ease-out` |
| `Animation.ExitTravelsDiagonal` | index.js:56-65 | the thrown card's displacement has length exactly the page diagonal, whatever the direction |
| `Animation.ExitDurationInverseToSpeed` | index.js:58-59 | doubling the release velocity halves the throw's duration |
| `Animation.ExitRotationBias` | index.js:68-86 | for a draw in [0,1): an untilted card ends within ±100°, a tilted one keeps its sign and turns up to 100° further |
| `Classifier.DragableTouchmove` | index.js:154-191 | ScrollStarted absorbs (same last sample, no write); SwipeStarted absorbs (new sample `(x + offset.x, 0, now)`, a write); from Noop: swipe iff horizontal displacement dominates, else scroll iff vertical displacement is non-zero, else unchanged; a write happens iff the outcome is SwipeStarted and then holds the dragged x, y = 0, tilt = 5 × px/ms, and the overlay tint |
| `Session.ThrowEffects` | index.js:270-279 | a throw emits onSwipe first (if supplied), then the animation, then hides the card, and only then onCardLeftScreen with the same direction; nothing else is emitted |
| `Session.SnapBackEffects` | index.js:266-284 | a snap-back is onSwipe (only for a swipe, and only when supplied) followed by exactly one animateBack; it never hides the card, never calls onCardLeftScreen, and reports onSwipe only for the swipe it was given |
| `Session.ReleaseEffects` | index.js:258-285 | below the 300 px/s threshold on both axes only animateBack runs; above it the card is thrown out iff `flickOnSwipe` and the direction is not prevented, otherwise it snaps back after onSwipe; the card is hidden iff it is thrown out |
| `Session.ReleaseCallbacks` | index.js:266-284 | onSwipe hears the direction iff the release is a swipe, and first; onCardLeftScreen hears the same direction iff the card is thrown out |
| `Session.SwipeVelocity` | index.js:221-252 | a programmatic swipe moves at 1000 px/s along its direction with the disturbance across it |
| `Session.SwipeVelocityIsAFlick` | index.js:221-252 | for every draw in [0,1) the synthesised velocity is a swipe that classifies back to the requested direction |
| `Session.SwipePlan` | index.js:226-251 | the programmatic throw uses the plain `ease` easing |
| `Session.SwipeEffects` | index.js:221-255 | `swipe(dir)` always hides the card after running its exit animation; onSwipe hears `dir` first and onCardLeftScreen hears it last, each exactly when supplied |
| `Session.SwipeIgnoresFlickSettings` | index.js:221-255 | the effects of `swipe(dir)` are the same whatever `flickOnSwipe` and `preventSwipe` say |
| `Session.ThrowCallbacks` | index.js:270-279 | a throw shows the host exactly onSwipe then onCardLeftScreen, both with its direction |
| `Session.SwipeMatchesFlick` | index.js:221-285 | a programmatic swipe and an input-driven throw in the same direction show the host the same callbacks in the same order |
| `Session.SpeedAfterMove` | index.js:341-342 | the stored velocity is zero when the classifier kept the last sample, otherwise the velocity between the samples |
| `Session.ClassifyMove` | index.js:333-343 | the offset is kept; a write happens iff the phase becomes SwipeStarted, and then the new sample is the dragged x at y = 0 and the stored velocity is the one between the two samples; otherwise the last sample is kept and the velocity is zero; Noop is only reached from Noop |
| `Session.TouchMoveStep` | index.js:324-344 | while scrolling a move only resets the last sample to the origin at `now` and zeroes the velocity, with no write; otherwise as `ClassifyMove` |
| `Session.MoveKeepsLevel` | index.js:162-166 | one touch or mouse move keeps the last sample at y = 0 and the stored velocity without a vertical part |
| `Session.MovesReleaseHorizontally` | index.js:324-344 | after any run of moves from a level state the stored velocity is horizontal, so a swipe it releases is right or left |
| `Session.TouchMoves` | index.js:324-344 | a run of moves keeps the drag offset |
| `Session.ScrollIsAbsorbing` | index.js:324-328 | once scrolling, every later move of the interaction leaves the phase at ScrollStarted and writes nothing |
| `Session.SwipeIsAbsorbing` | index.js:162-181 | once swiping, every later move writes a transform, the phase stays SwipeStarted, and the last sample is the last move's dragged x at y = 0 |
| `Session.NoopOnlyFromNoop` | index.js:170-190 | phases only move forward: a run ending in Noop started in Noop and wrote nothing |
| `Session.TinderCard.constructor` | index.js:214-215 | a mounted card starts unreleased, in Noop, offset 0, last sample the origin at mount time, zero velocity, empty trace |
| `Session.TinderCard.HandleSwipeStart` | index.js:295-297 | re-arms the release guard |
| `Session.TinderCard.HandleSwipeReleased` | index.js:258-285 | one-shot: the first call sets the guard and appends `ReleaseEffects`; any later call before `HandleSwipeStart` appends nothing |
| `Session.TinderCard.TouchStart` | index.js:305-312 | re-arms the guard and sets the offset to minus the touch position |
| `Session.TinderCard.MouseDown` | index.js:314-322 | as `TouchStart`, and marks the mouse as held |
| `Session.TinderCard.TouchMove` | index.js:324-344 | the new state and the appended effects are those of `TouchMoveStep` |
| `Session.TinderCard.MouseMove` | index.js:346-361 | while the mouse is held, as `ClassifyMove` (a scroll does not short-cut); otherwise nothing changes |
| `Session.TinderCard.TouchEnd` | index.js:363-369 | the phase ends at Noop; the release runs only if the phase was SwipeStarted |
| `Session.TinderCard.MouseUp` | index.js:371-385 | mouseup and mouseleave while held: clear the hold and release whatever the phase, leaving the phase as it was |
| `Session.TinderCard.Swipe` | index.js:221-255 | appends `SwipeEffects`; the guard and the gesture state are untouched |
| `Session.ReleaseTwice` | index.js:258-263 | a duplicated release event runs the release logic exactly once |

## Left out

- The React shell: `forwardRef`, `useImperativeHandle`, `useLayoutEffect`, `createElement` and the
  `addEventListener` wiring are framework plumbing. Each listener is one method of `TinderCard`.
- `getTranslate` and `getRotation` read the computed style through `WebKitCSSMatrix` and use
  `Math.asin`. They are foreign browser calls and floating-point trigonometry, so the card's
  current transform is the input `Readings.current`.
- `getElementSize` and `pythagoras` are left out for the same reason. The page diagonal and the
  speed's length are inputs; the length is tied to the velocity by its squared-length equation.
- `Math.random()` is not modelled. Each draw is a parameter: `Readings.random` for the exit tilt
  and `jitter` for the disturbance of `swipe`.
- `sleep` and `setTimeout` are not modelled as timers. An `AnimatedOut` event stands for the
  completed awaited animation. The two timers of `animateBack` are the times recorded in its
  `BackPlan`.
- Handlers that run while `animateOut` is being awaited are not modelled. Each handler runs
  atomically here.
- `new Date().getTime()` is the parameter `now` of each move and the mount time of the
  constructor.
- `translationString` and `rotationString` format numbers as CSS text. The model keeps the
  numbers, and keeps the transition strings as the duration and easing of the plans. Style writes
  that clear the overlay or reset its transition are part of what the `AnimatedOut` and
  `AnimatedBack` events stand for.
- `ev.preventDefault()` controls browser scrolling, outside the card's state.
- The mouse release handlers call `handleSwipeReleased(element.current, speed)` without the
  overlay argument (index.js:375, 383). That call would set the guard and then fail on
  `undefined.x`. `TinderCard.MouseUp` models them with the touch handler's arguments.
- `swipe("left")` passes `true` where the overlay belongs and leaves `easeIn` unset
  (index.js:233-237). It would throw after starting an `ease-out` animation and would never hide
  the card. `TinderCard.Swipe` models the left swipe like the other three directions.
- `swipe` with a direction string other than the four names cannot be expressed here, because
  `Direction` has four values. The source would skip the animation but still hide the card and
  call `onCardLeftScreen`.
- A scrolling touch move assigns the number `0` to `speed` (index.js:326). The model stores the
  zero vector.
- A non-writing move leaves `speed` as `calcSpeed(last, last)`, which is not-a-number. The model
  stores the zero vector. Either value fails both threshold comparisons at release, just as the
  zero vector does, so the release behaves the same.
- Classifier.DragableTouchmove: requires a distinct timestamp only for a move that writes a
  transform. With equal timestamps the source's tilt would be infinite or not-a-number.
- Animation.AnimateOut: requires a positive speed length. In the source a zero length gives an
  infinite duration, but a release only throws a card whose speed passes the threshold.
- Session.TouchMoves and its lemmas: require strictly increasing move timestamps. Two moves in
  the same millisecond would give the source an infinite velocity.
- `window.innerWidth` is taken to be positive.
- Floating-point rounding is not modelled. All arithmetic is exact.
- The unused `xDiff` argument of `getOverlayColor` is dropped.
