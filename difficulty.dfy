/**
 * Difficulty of the multiplication quiz.
 *
 * The options screen offers a continuous slider over [1, 100]; when the user
 * lets go of it, the value is rounded UP to a multiple of 25, so the stored
 * difficulty is one of four tiers (25 easiest, 100 hardest).  The game screen
 * turns the tier into the largest multiplier a question may use.
 */
module Difficulty {

  /** The smallest integer that is not below `x`. */
  function Ceil(x: real): (r: int)
    ensures x <= r as real < x + 1.0
  {
    var f := x.Floor;
    if f as real == x then f else f + 1
  }

  /** The four values the slider snaps to, easiest first. */
  predicate IsTier(d: int) {
    d == 25 || d == 50 || d == 75 || d == 100
  }

  /** Rounds a slider value up to a multiple of 25 (`25 * ceil(v / 25)`). */
  function Snap(v: real): (r: int)
    ensures r % 25 == 0
    ensures v <= r as real < v + 25.0
  {
    25 * Ceil(v / 25.0)
  }

  /** Every value the slider can hold snaps to one of the four tiers. */
  lemma SnapIsTier(v: real)
    requires 0.0 < v <= 100.0
    ensures IsTier(Snap(v))
  {
  }

  /** No multiple of 25 that is at least `v` lies below `Snap(v)`:
      together with Snap's own contract, `Snap(v)` is the least such multiple. */
  lemma SnapIsLeast(v: real, m: int)
    requires m % 25 == 0
    requires v <= m as real
    ensures Snap(v) <= m
  {
  }

  /** Snapping an already snapped value changes nothing. */
  lemma SnapIdempotent(v: real)
    ensures Snap(Snap(v) as real) == Snap(v)
  {
  }

  /** The boundary cases of the rounding rule. */
  lemma SnapExamples()
    ensures Snap(1.0) == 25
    ensures Snap(25.0) == 25
    ensures Snap(26.0) == 50
    ensures Snap(50.0) == 50
    ensures Snap(100.0) == 100
  {
  }

  /**
   * The largest multiplier a question may use at difficulty `d`:
   * 10, 15, 20 and 25 for the four tiers, 15 for anything else.
   */
  function MaxMult(d: int): (r: int)
    ensures 10 <= r <= 25
    ensures IsTier(d) ==> r == d / 5 + 5
    ensures !IsTier(d) ==> r == 15
  {
    match d
    case 25 => 10
    case 50 => 15
    case 75 => 20
    case 100 => 25
    case _ => 15
  }

  /** A harder tier never narrows the multiplier range. */
  lemma MaxMultMonotone(d1: int, d2: int)
    requires IsTier(d1) && IsTier(d2) && d1 <= d2
    ensures MaxMult(d1) <= MaxMult(d2)
  {
  }
}
