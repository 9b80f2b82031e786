/** Trackbar readings and the floor-at-1 clamp shared by the two Hough pickers. */
module Sliders {

  /** `cv2.getTrackbarPos` of a trackbar created with `createTrackbar(name, window, value, count, ...)`
      reports a position in [0, count]; the third argument is only the initial position. */
  predicate InTrackbar(v: int, count: nat) {
    0 <= v <= count
  }

  /** `max(raw, 1)`: a count or vote parameter is never 0 or negative, and a legal one is kept. */
  function FloorAtOne(raw: int): (r: int)
    ensures r >= 1
    ensures raw >= 1 ==> r == raw
    ensures raw < 1 ==> r == 1
  {
    if raw < 1 then 1 else raw
  }

  /** Applying the clamp a second time changes nothing. */
  lemma FloorAtOneIdempotent(raw: int)
    ensures FloorAtOne(FloorAtOne(raw)) == FloorAtOne(raw)
  {
  }

  /** A reading of a trackbar with range [0, count], count >= 1, stays in [1, count] once clamped. */
  lemma FloorAtOneInRange(raw: int, count: nat)
    requires InTrackbar(raw, count) && count >= 1
    ensures 1 <= FloorAtOne(raw) <= count
  {
  }
}
