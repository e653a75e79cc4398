/** Angular velocity: a smoothed first difference over time (lib/pose/velocity.ts). */
module Velocity {
  import opened Utils

  /** The rate between samples i-1 and i, or 0 when time does not advance. */
  function Rate(angles: seq<real>, times: seq<real>, i: int): real
    requires |times| == |angles| && 0 < i < |angles|
  {
    var dt := times[i] - times[i - 1];
    if dt > 0.0 then (angles[i] - angles[i - 1]) / dt else 0.0
  }

  /** The unsmoothed velocities: 0 for the first frame, then the rate per step. */
  function RawVelocity(angles: seq<real>, times: seq<real>): (raw: seq<real>)
    requires |times| == |angles|
    ensures |raw| == |angles|
  {
    seq(|angles|, i requires 0 <= i < |angles| => if i == 0 then 0.0 else Rate(angles, times, i))
  }

  /** All zeros when fewer than two angles or the time series does not match; else the smoothed raw velocity. */
  function AngularVelocity(angles: seq<real>, times: seq<real>): (r: seq<real>)
    ensures |r| == |angles|
  {
    if |angles| < 2 || |times| != |angles| then seq(|angles|, _ => 0.0)
    else Smoothed(RawVelocity(angles, times), 3)
  }

  /** Velocity in degrees per second, one value per angle. */
  method ComputeAngularVelocity(angles: seq<real>, times: seq<real>) returns (r: seq<real>)
    ensures |r| == |angles|
    ensures r == AngularVelocity(angles, times)
  {
    if |angles| < 2 || |times| != |angles| {
      return seq(|angles|, _ => 0.0);
    }
    var velocities := [0.0];
    var i := 1;
    while i < |angles|
      invariant 1 <= i <= |angles|
      invariant velocities == RawVelocity(angles, times)[..i]
    {
      var dt := times[i] - times[i - 1];
      if dt > 0.0 {
        var dAngle := angles[i] - angles[i - 1];
        assert dAngle / dt == Rate(angles, times, i);
        velocities := velocities + [dAngle / dt];
      } else {
        velocities := velocities + [0.0];
      }
      i := i + 1;
    }
    assert velocities == RawVelocity(angles, times);
    r := SmoothArray(velocities, 3);
  }

  /** Where time advances, the rate times the time step recovers the angle change. */
  lemma RateRecoversChange(angles: seq<real>, times: seq<real>, i: int)
    requires |times| == |angles| && 0 < i < |angles|
    ensures times[i] - times[i - 1] > 0.0 ==>
              Rate(angles, times, i) * (times[i] - times[i - 1]) == angles[i] - angles[i - 1]
    ensures times[i] - times[i - 1] <= 0.0 ==> Rate(angles, times, i) == 0.0
  {
  }

  /** A constant angle series has zero velocity everywhere. */
  lemma ConstantAnglesZeroVelocity(angles: seq<real>, times: seq<real>, c: real)
    requires forall k :: 0 <= k < |angles| ==> angles[k] == c
    ensures forall k :: 0 <= k < |angles| ==> AngularVelocity(angles, times)[k] == 0.0
  {
    if 2 <= |angles| && |times| == |angles| {
      var raw := RawVelocity(angles, times);
      assert forall k :: 0 <= k < |raw| ==> raw[k] == 0.0;
      SmoothedConstant(raw, 3, 0.0);
    }
  }

  /** Velocities are bounded by the largest rate in absolute value. */
  lemma VelocityBounded(angles: seq<real>, times: seq<real>, bound: real)
    requires |times| == |angles|
    requires forall i :: 0 < i < |angles| ==> Abs(Rate(angles, times, i)) <= bound
    requires 0.0 <= bound
    ensures forall k :: 0 <= k < |angles| ==> -bound <= AngularVelocity(angles, times)[k] <= bound
  {
    if 2 <= |angles| {
      var raw := RawVelocity(angles, times);
      assert forall k :: 0 <= k < |raw| ==> -bound <= raw[k] <= bound;
      SmoothedWithin(raw, 3, -bound, bound);
    }
  }
}
