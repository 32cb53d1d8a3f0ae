/**
  The pure part of the distance-guidance engine: the three-way decision that
  `updateGuidance` makes on a distance, and the debounce test that gates the
  "on target" beep. Distances are metres, times are milliseconds.
 */
module Guidance {

  /** The distance the user is guided to, in metres (TARGET_DIST). */
  const TARGET_DIST: real := 10.0

  /** Half-width of the "on target" window, in metres (TOLERANCE). */
  const TOLERANCE: real := 0.5

  /** A guidance beep needs strictly more than this many milliseconds since the previous one. */
  const MIN_BEEP_GAP_MS: int := 800

  /** The band a distance falls in, named after the status class the page applies to it. */
  datatype Band =
    | Perfect  // status-perfect, "PERFECT - STOP"
    | Close    // status-close, "MOVE AHEAD": still short of the target
    | Far      // status-far, "MOVE BACK": past the target

  function Abs(x: real): real {
    if x < 0.0 then -x else x
  }

  /**
    The decision of `updateGuidance`: first the tolerance test on the
    difference to the target, then the comparison with the lower edge.
    The three bands are the closed window around the target and the two
    open half-lines on either side of it; both edges belong to Perfect.
   */
  function Classify(d: real): (b: Band)
    ensures b == Perfect <==> TARGET_DIST - TOLERANCE <= d <= TARGET_DIST + TOLERANCE
    ensures b == Close <==> d < TARGET_DIST - TOLERANCE
    ensures b == Far <==> TARGET_DIST + TOLERANCE < d
  {
    if Abs(d - TARGET_DIST) <= TOLERANCE then Perfect
    else if d < TARGET_DIST - TOLERANCE then Close
    else Far
  }

  /** The debounce test of `updateGuidance`: strictly more than the minimum gap has passed. */
  predicate BeepDue(now: int, lastBeepTime: int) {
    now - lastBeepTime > MIN_BEEP_GAP_MS
  }

  /** The band boundaries at 9.5 m and 10.5 m, and a point on either side of each. */
  lemma ClassifyAtBoundaries()
    ensures Classify(9.4) == Close && Classify(9.5) == Perfect && Classify(9.6) == Perfect
    ensures Classify(10.0) == Perfect && Classify(10.5) == Perfect && Classify(10.6) == Far
  {
  }

  /** The debounce is strict: exactly 800 ms after a beep is still too early, 801 ms is not. */
  lemma BeepDueIsStrict(last: int)
    ensures !BeepDue(last + MIN_BEEP_GAP_MS, last)
    ensures BeepDue(last + MIN_BEEP_GAP_MS + 1, last)
  {
  }
}
