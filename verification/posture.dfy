/**
 * The posture classifier: a two-state machine with hysteresis. A smoothed
 * angle below SLOUCH_THRESH means slouching, one above RECOVERY_THRESH means
 * normal, and an angle in the dead band between them keeps the current
 * status, so that an angle hovering near one threshold cannot make the
 * status flicker.
 */
module Posture {
  import opened Wrappers
  import Geometry

  datatype Status = Normal | Slouching

  /** Below this angle the posture counts as slouching. */
  const SLOUCH_THRESH: real := 145.0
  /** Above this angle the posture counts as normal again. */
  const RECOVERY_THRESH: real := 155.0

  /** The status string the camera reports. */
  function Label(s: Status): (r: string)
    ensures r == "Normal" || r == "Warning: Slouching!"
    ensures r == "Normal" <==> s == Normal
  {
    match s
    case Normal => "Normal"
    case Slouching => "Warning: Slouching!"
  }

  /** An angle within the dead band, where no transition happens. */
  predicate InDeadBand(angle: real)
  {
    SLOUCH_THRESH <= angle <= RECOVERY_THRESH
  }

  /** The status after classifying one smoothed angle. */
  function NextStatus(s: Status, angle: real): (r: Status)
    ensures angle < SLOUCH_THRESH ==> r == Slouching
    ensures angle > RECOVERY_THRESH ==> r == Normal
    ensures InDeadBand(angle) ==> r == s
  {
    if angle < SLOUCH_THRESH then Slouching
    else if angle > RECOVERY_THRESH then Normal
    else s
  }

  /**
   * Two consecutive transitions need angles more than 10 degrees apart:
   * the width of the dead band is the anti-flicker margin.
   */
  lemma FlipsAreFarApart(s: Status, a: real, b: real)
    requires NextStatus(s, a) != s
    requires NextStatus(NextStatus(s, a), b) != NextStatus(s, a)
    ensures Geometry.Abs(a - b) > RECOVERY_THRESH - SLOUCH_THRESH
  {
  }

  /** The status after classifying `angles` in order, starting from `start`. */
  function Run(start: Status, angles: seq<real>): (r: Status)
  {
    if angles == [] then start
    else NextStatus(Run(start, angles[..|angles| - 1]), angles[|angles| - 1])
  }

  /** The most recent angle outside the dead band, if there is one. */
  function LastDecisive(angles: seq<real>): (r: Option<real>)
    ensures r.Some? ==> !InDeadBand(r.value)
  {
    if angles == [] then None
    else if !InDeadBand(angles[|angles| - 1]) then Some(angles[|angles| - 1])
    else LastDecisive(angles[..|angles| - 1])
  }

  /**
   * Reference characterisation of the classifier: after any sequence of
   * angles the status is decided by the most recent angle outside the dead
   * band alone, and is the start status when every angle lay in the band.
   */
  lemma {:induction false} RunFollowsLastDecisive(start: Status, angles: seq<real>)
    ensures Run(start, angles) == match LastDecisive(angles)
      case None => start
      case Some(a) => if a < SLOUCH_THRESH then Slouching else Normal
  {
    if angles != [] {
      RunFollowsLastDecisive(start, angles[..|angles| - 1]);
    }
  }

  /** Angles that all stay in the dead band never change the status, however many there are. */
  lemma {:induction false} DeadBandRunKeepsStatus(start: Status, angles: seq<real>)
    requires forall i :: 0 <= i < |angles| ==> InDeadBand(angles[i])
    ensures Run(start, angles) == start
  {
    if angles != [] {
      var init := angles[..|angles| - 1];
      assert forall i :: 0 <= i < |init| ==> InDeadBand(init[i]) by {
        forall i | 0 <= i < |init| ensures InDeadBand(init[i]) {
          assert init[i] == angles[i];
        }
      }
      DeadBandRunKeepsStatus(start, init);
    }
  }

  /** From Normal, the angles 140, 150, 156 give Slouching, Slouching, Normal. */
  lemma HysteresisExample()
    ensures Run(Normal, [140.0]) == Slouching
    ensures Run(Normal, [140.0, 150.0]) == Slouching
    ensures Run(Normal, [140.0, 150.0, 156.0]) == Normal
  {
    assert [140.0, 150.0][..1] == [140.0];
    assert [140.0, 150.0, 156.0][..2] == [140.0, 150.0];
  }
}
