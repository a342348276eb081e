/**
 * The per-move gesture classifier (`dragableTouchmove`): given the pointer
 * coordinates of one move, the drag offset, the last recorded sample and the
 * current phase, it decides whether the card follows the pointer (a swipe),
 * leaves the gesture to the page (a scroll) or does nothing yet, and returns
 * the new last sample and phase together with the transform and tint it
 * writes, if any.
 */
module Classifier {
  import opened Geometry

  datatype Option<T> = None | Some(value: T)

  /** The phase of the interaction in progress. */
  datatype Phase = Noop | SwipeStarted | ScrollStarted

  /**
   * What a swiping move writes to the page: the card's translation (the
   * vertical one is always 0), its tilt in degrees and the overlay tint.
   */
  datatype DragWrite = DragWrite(translateX: real, translateY: real, tilt: real, overlay: Rgba)

  datatype MoveOutcome = MoveOutcome(location: Sample, phase: Phase, write: Option<DragWrite>)

  /**
   * The card follows this move: either the swipe has already started, or the
   * horizontal displacement since the last sample is strictly larger than
   * the vertical one; never once a scroll has started.
   */
  predicate WritesTransform(coords: Vec, offset: Vec, last: Sample, state: Phase) {
    (Abs(coords.x + offset.x - last.x) > Abs(coords.y + offset.y - last.y)
     || state == SwipeStarted)
    && state != ScrollStarted
  }

  /**
   * One move at clock time `now`. The dragged position is horizontal only;
   * the tilt is `MaxTilt` degrees per pixel-per-millisecond of horizontal
   * velocity since the last sample, so a move that writes must not share the
   * last sample's timestamp.
   */
  function DragableTouchmove(coords: Vec, offset: Vec, last: Sample, state: Phase, now: real, innerWidth: real): (o: MoveOutcome)
    requires WritesTransform(coords, offset, last, state) ==> now != last.time
    requires innerWidth > 0.0
    // a scroll, once started, is never turned into a swipe and moves nothing
    ensures state == ScrollStarted ==> o == MoveOutcome(last, ScrollStarted, None)
    // a swipe, once started, always follows the pointer horizontally
    ensures state == SwipeStarted ==>
              o.phase == SwipeStarted && o.write.Some? &&
              o.location == Sample(coords.x + offset.x, 0.0, now)
    // from no phase: horizontal dominance starts a swipe, any other vertical
    // displacement starts a scroll, and no displacement changes nothing
    ensures state == Noop ==>
              if Abs(coords.x + offset.x - last.x) > Abs(coords.y + offset.y - last.y) then
                o.phase == SwipeStarted && o.location == Sample(coords.x + offset.x, 0.0, now)
              else if coords.y + offset.y - last.y != 0.0 then
                o == MoveOutcome(last, ScrollStarted, None)
              else
                o == MoveOutcome(last, Noop, None)
    // a transform is written exactly when the outcome is a swipe, and then
    // it places the card at the dragged position with a tilt proportional
    // to the horizontal velocity and a tint for the dragged position
    ensures o.write.Some? <==> o.phase == SwipeStarted
    ensures o.write.Some? ==>
              var w := o.write.value;
              w.translateX == coords.x + offset.x && w.translateY == 0.0 &&
              w.tilt * (now - last.time) == MaxTilt * (coords.x + offset.x - last.x) &&
              w.overlay == GetOverlayColor(Vec(coords.x + offset.x, 0.0), innerWidth)
    ensures o.write.None? ==> o.location == last
  {
    var pos := Vec(coords.x + offset.x, 0.0);
    var newLocation := Sample(pos.x, pos.y, now);
    if WritesTransform(coords, offset, last, state) then
      var rotCalc := CalcSpeed(last, newLocation).x / 1000.0;
      var write := DragWrite(pos.x, pos.y, rotCalc * MaxTilt, GetOverlayColor(pos, innerWidth));
      MoveOutcome(newLocation, SwipeStarted, Some(write))
    else if Abs(coords.y + offset.y - last.y) > 0.0 && state != SwipeStarted then
      MoveOutcome(last, ScrollStarted, None)
    else
      MoveOutcome(last, state, None)
  }
}
