/**
 * The settling-time metric on a recorded trajectory: the earliest sample
 * from which every later sample stays within a band around the target.
 */
module SettlingTime {
  import opened Basics

  /** Width of the band: `setpoint * percent / 100`, in units of the trajectory. */
  function Threshold(setpoint: real, percent: real): real
  {
    setpoint * percent / 100.0
  }

  /** The sample `v` lies within `threshold` of `setpoint`. */
  predicate InBand(v: real, setpoint: real, threshold: real)
  {
    Abs(v - setpoint) <= threshold
  }

  /** Every sample from index `i` to the end lies within the band. */
  predicate StaysInBand(vs: seq<real>, setpoint: real, threshold: real, i: nat)
  {
    forall j :: i <= j < |vs| ==> InBand(vs[j], setpoint, threshold)
  }

  /**
   * The last index below `n` whose sample is outside the band, found by
   * scanning backwards from `n`.
   */
  function LastOutside(vs: seq<real>, setpoint: real, threshold: real, n: nat): (r: Option<nat>)
    requires n <= |vs|
    ensures r.Some? ==> r.value < n && !InBand(vs[r.value], setpoint, threshold)
    ensures r.Some? ==> forall j :: r.value < j < n ==> InBand(vs[j], setpoint, threshold)
    ensures r.None? ==> forall j :: 0 <= j < n ==> InBand(vs[j], setpoint, threshold)
  {
    if n == 0 then None
    else if !InBand(vs[n - 1], setpoint, threshold) then Some(n - 1)
    else LastOutside(vs, setpoint, threshold, n - 1)
  }

  /**
   * Settling index by a single backward pass: one past the last sample
   * outside the band (or 0 when there is none), provided that is a sample.
   * It is the smallest index whose whole suffix stays in the band, and there
   * is none exactly when the result is `None`; a sample that touches the
   * band and later leaves it is never reported.
   */
  function SettlingIndex(vs: seq<real>, setpoint: real, threshold: real): (r: Option<nat>)
    ensures r.Some? ==> r.value < |vs| && StaysInBand(vs, setpoint, threshold, r.value)
    ensures r.Some? ==> forall i :: 0 <= i < r.value ==> !StaysInBand(vs, setpoint, threshold, i)
    ensures r.None? <==> forall i :: 0 <= i < |vs| ==> !StaysInBand(vs, setpoint, threshold, i)
  {
    var start := match LastOutside(vs, setpoint, threshold, |vs|)
      case None => 0
      case Some(j) => j + 1;
    if start < |vs| then Some(start) else None
  }

  /** A trajectory whose last sample is outside the band never settles. */
  lemma LastOutsideNeverSettles(vs: seq<real>, setpoint: real, threshold: real)
    requires |vs| > 0 && !InBand(vs[|vs| - 1], setpoint, threshold)
    ensures SettlingIndex(vs, setpoint, threshold).None?
  {
  }

  /** With a negative band width (for instance a negative setpoint) nothing settles. */
  lemma NegativeThresholdNeverSettles(vs: seq<real>, setpoint: real, threshold: real)
    requires threshold < 0.0
    ensures SettlingIndex(vs, setpoint, threshold).None?
  {
  }

  /** Touching the band at index 1 and leaving it again does not count: the settling index is 3. */
  lemma TouchThenLeave()
    ensures SettlingIndex([10.0, 5.0, 10.0, 5.0, 5.0], 5.0, 0.05) == Some(3)
  {
    var vs := [10.0, 5.0, 10.0, 5.0, 5.0];
    assert InBand(vs[4], 5.0, 0.05) && InBand(vs[3], 5.0, 0.05) && !InBand(vs[2], 5.0, 0.05);
    assert LastOutside(vs, 5.0, 0.05, 3) == Some(2);
    assert LastOutside(vs, 5.0, 0.05, 5) == Some(2);
  }
}
