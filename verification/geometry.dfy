/**
 * The angle estimator of the posture monitor: the angle at the shoulder
 * between the ear and a reference point straight below the shoulder.
 *
 * The trigonometry (atan2 and the radian-to-degree conversion) is kept
 * abstract: a direction from the shoulder is given as a Bearing, the value
 * atan2 yields for it, already in degrees. Only the absolute difference and
 * the fold to the non-reflex angle are modelled.
 */
module Geometry {

  /** A direction in degrees as atan2 yields it: within [-180, 180]. */
  type Bearing = x: real | -180.0 <= x <= 180.0

  /**
   * The bearing of the virtual point 100 pixels straight below the
   * shoulder. Image rows grow downward, so this is atan2(100, 0), a quarter
   * turn.
   */
  const VERTICAL_BEARING: Bearing := 90.0

  /** The bearing of a point straight above the shoulder: atan2(-100, 0). */
  const UPWARD_BEARING: Bearing := -90.0

  function Abs(x: real): (r: real)
    ensures r >= 0.0 && (r == x || r == -x)
  {
    if x < 0.0 then -x else x
  }

  /**
   * The final step of the angle computation: a turn above 180 degrees is
   * replaced by its complement to a full circle. For every turn that two
   * bearings can be apart, the result is the smaller of the two ways round.
   */
  function FoldAngle(turn: real): (r: real)
    ensures turn <= 180.0 ==> r == turn
    ensures 0.0 <= turn <= 360.0 ==> 0.0 <= r <= 180.0
    ensures 0.0 <= turn <= 360.0 ==> (r == turn || r == 360.0 - turn) && r <= turn && r <= 360.0 - turn
  {
    if turn > 180.0 then 360.0 - turn else turn
  }

  /** Folding an already folded turn changes nothing. */
  lemma FoldIdempotent(turn: real)
    requires 0.0 <= turn <= 360.0
    ensures FoldAngle(FoldAngle(turn)) == FoldAngle(turn)
  {
  }

  /**
   * The angle at the vertex between the rays with bearings `a` and `c`:
   * the absolute difference of the bearings, folded.
   */
  function VectorAngle(a: Bearing, c: Bearing): (r: real)
    ensures 0.0 <= r <= 180.0
    ensures r == Abs(c - a) || r == 360.0 - Abs(c - a)
  {
    FoldAngle(Abs(c - a))
  }

  /** Swapping the two outer points leaves the angle unchanged. */
  lemma VectorAngleSymmetric(a: Bearing, c: Bearing)
    ensures VectorAngle(a, c) == VectorAngle(c, a)
  {
  }

  /** Rays in the same direction make no angle; opposite rays make 180 degrees. */
  lemma VectorAngleExtremes(a: Bearing, c: Bearing)
    ensures VectorAngle(a, c) == 0.0 <==> (a == c || Abs(c - a) == 360.0)
    ensures VectorAngle(a, c) == 180.0 <==> Abs(c - a) == 180.0
  {
  }

  /**
   * The neck angle measured against the downward vertical is 180 degrees
   * less the tilt of the ear away from straight up: 180 for an ear right
   * above the shoulder, smaller the further the head leans.
   */
  lemma NeckAngleIsSupplementOfTilt(ear: Bearing)
    ensures VectorAngle(ear, VERTICAL_BEARING) == 180.0 - VectorAngle(ear, UPWARD_BEARING)
  {
  }
}
