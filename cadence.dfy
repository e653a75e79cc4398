/** Cadence: peaks per second of the re-differentiated signal and the first-third/last-third trend (lib/pose/cadence.ts). */
module Cadence {
  import opened Types
  import opened Utils
  import opened Velocity

  /** A sample is a peak when it exceeds this fraction of the largest magnitude. */
  const PeakFraction: real := 0.6

  /** `Math.max(...v.map(Math.abs))`: the largest magnitude of a non-empty series. */
  function MaxAbs(v: seq<real>): (r: real)
    requires |v| > 0
    ensures forall i :: 0 <= i < |v| ==> Abs(v[i]) <= r
    ensures exists i :: 0 <= i < |v| && Abs(v[i]) == r
  {
    if |v| == 1 then Abs(v[0])
    else
      var init := MaxAbs(v[..|v| - 1]);
      assert forall i :: 0 <= i < |v| - 1 ==> v[..|v| - 1][i] == v[i];
      Max(init, Abs(v[|v| - 1]))
  }

  /** Index `i` is a strict local maximum of the magnitudes, above the threshold, away from both ends. */
  predicate IsPeak(v: seq<real>, threshold: real, i: int)
  {
    && 1 <= i < |v| - 1
    && Abs(v[i]) > threshold
    && Abs(v[i]) > Abs(v[i - 1])
    && Abs(v[i]) > Abs(v[i + 1])
  }

  /** The number of peaks among the indices 1 .. k-1. */
  function PeakCount(v: seq<real>, threshold: real, k: int): nat
  {
    if k <= 1 then 0
    else PeakCount(v, threshold, k - 1) + (if IsPeak(v, threshold, k - 1) then 1 else 0)
  }

  /** Magnitudes, element by element. */
  function Magnitudes(s: seq<real>): (r: seq<real>)
    ensures |r| == |s|
  {
    seq(|s|, i requires 0 <= i < |s| => Abs(s[i]))
  }

  /** Mean magnitude of the first `third` samples. */
  function FirstThirdAvg(v: seq<real>, third: int): real
    requires 0 < third <= |v|
  {
    Sum(Magnitudes(v[..third])) / third as real
  }

  /** Mean magnitude of the last `third` samples. */
  function LastThirdAvg(v: seq<real>, third: int): real
    requires 0 < third <= |v|
  {
    Sum(Magnitudes(v[|v| - third..])) / third as real
  }

  /** Percent change from the first to the last third, 0 when the first third is still. */
  function Trend(firstAvg: real, lastAvg: real): real
  {
    if firstAvg > 0.0 then (lastAvg - firstAvg) / firstAvg * 100.0 else 0.0
  }

  /** Peaks per second over the clip, 0 when the clip has no positive duration. */
  function PeakRate(peaks: nat, duration: real): real
  {
    if duration > 0.0 then peaks as real / duration else 0.0
  }

  /** Rate and trend of a velocity series of at least three samples. */
  function CadenceOfVelocity(v: seq<real>, times: seq<real>): CadenceMetric
    requires 3 <= |v| && |times| == |v|
  {
    var peaks := PeakCount(v, MaxAbs(v) * PeakFraction, |v| - 1);
    var third := |v| / 3;
    CadenceMetric(
      PeakRate(peaks, times[|times| - 1] - times[0]),
      Trend(FirstThirdAvg(v, third), LastThirdAvg(v, third)))
  }

  /** What the cadence estimator returns for the given input series and timestamps. */
  function CadenceOf(angles: seq<real>, times: seq<real>): CadenceMetric
  {
    if |angles| < 3 || |times| != |angles| then CadenceMetric(0.0, 0.0)
    else CadenceOfVelocity(AngularVelocity(angles, times), times)
  }

  /** Counts the strict local maxima of the magnitudes above the threshold, one index at a time. */
  method CountPeaks(velocities: seq<real>, threshold: real) returns (peaks: nat)
    requires 2 <= |velocities|
    ensures peaks == PeakCount(velocities, threshold, |velocities| - 1)
  {
    peaks := 0;
    var i := 1;
    while i < |velocities| - 1
      invariant 1 <= i <= |velocities| - 1
      invariant peaks == PeakCount(velocities, threshold, i)
    {
      var prev := Abs(velocities[i - 1]);
      var curr := Abs(velocities[i]);
      var next := Abs(velocities[i + 1]);
      if curr > threshold && curr > prev && curr > next {
        peaks := peaks + 1;
      }
      i := i + 1;
    }
  }

  /** Counts velocity peaks per second and compares the first and last thirds. */
  method ComputeCadence(angles: seq<real>, times: seq<real>) returns (c: CadenceMetric)
    ensures c == CadenceOf(angles, times)
  {
    if |angles| < 3 || |times| != |angles| {
      return CadenceMetric(0.0, 0.0);
    }
    var velocities := ComputeAngularVelocity(angles, times);
    var threshold := MaxAbs(velocities) * PeakFraction;

    var peaks := CountPeaks(velocities, threshold);

    var duration := times[|times| - 1] - times[0];
    var cadence := PeakRate(peaks, duration);

    var third := |velocities| / 3;
    var firstThirdAvg := FirstThirdAvg(velocities, third);
    var lastThirdAvg := LastThirdAvg(velocities, third);
    var trend := Trend(firstThirdAvg, lastThirdAvg);
    c := CadenceMetric(cadence, trend);
  }

  /** Two neighbouring indices are never both peaks. */
  lemma NoAdjacentPeaks(v: seq<real>, threshold: real, i: int)
    ensures !(IsPeak(v, threshold, i) && IsPeak(v, threshold, i + 1))
  {
  }

  /** Since peaks are never adjacent, at most half of the indices 1 .. k-1 (rounded up) are peaks. */
  lemma {:induction false} PeakCountAtMostHalf(v: seq<real>, threshold: real, k: int)
    ensures PeakCount(v, threshold, k) <= (if k <= 0 then 0 else k / 2)
    decreases k
  {
    if k > 1 {
      PeakCountAtMostHalf(v, threshold, k - 1);
      if IsPeak(v, threshold, k - 1) {
        NoAdjacentPeaks(v, threshold, k - 2);
        PeakCountAtMostHalf(v, threshold, k - 2);
        if k > 2 {
          assert PeakCount(v, threshold, k - 1) == PeakCount(v, threshold, k - 2);
        }
      }
    }
  }

  /** The peak count over a series of n samples is at most n - 2. */
  lemma PeakCountBound(v: seq<real>, threshold: real)
    requires |v| >= 3
    ensures PeakCount(v, threshold, |v| - 1) <= |v| - 2
  {
    PeakCountAtMostHalf(v, threshold, |v| - 1);
  }

  /** Summing magnitudes never gives a negative value. */
  lemma MagnitudeSumNonNegative(s: seq<real>)
    ensures 0.0 <= Sum(Magnitudes(s))
  {
    var mags := Magnitudes(s);
    if |mags| > 0 {
      SumBounds(mags, 0.0, MaxAbs(s));
    }
  }

  /** The trend never drops below -100 percent when the last third's magnitude is non-negative. */
  lemma TrendAtLeastMinusHundred(firstAvg: real, lastAvg: real)
    requires 0.0 <= lastAvg
    ensures -100.0 <= Trend(firstAvg, lastAvg)
  {
    if firstAvg > 0.0 {
      var ratio := (lastAvg - firstAvg) / firstAvg;
      assert ratio * firstAvg == lastAvg - firstAvg;
      if ratio < -1.0 {
        ProductMonotone(ratio, -1.0, firstAvg);
      }
    }
  }

  /** For any velocity series: the rate is never negative and the trend never below -100 percent. */
  lemma CadenceOfVelocityBounds(v: seq<real>, times: seq<real>)
    requires 3 <= |v| && |times| == |v|
    ensures 0.0 <= CadenceOfVelocity(v, times).value
    ensures -100.0 <= CadenceOfVelocity(v, times).trend
  {
    var third := |v| / 3;
    var lastSum := Sum(Magnitudes(v[|v| - third..]));
    MagnitudeSumNonNegative(v[|v| - third..]);
    QuotientNonNegative(lastSum, third as real);
    TrendAtLeastMinusHundred(FirstThirdAvg(v, third), LastThirdAvg(v, third));
    var peaks := PeakCount(v, MaxAbs(v) * PeakFraction, |v| - 1);
    var duration := times[|times| - 1] - times[0];
    if duration > 0.0 {
      QuotientNonNegative(peaks as real, duration);
    }
  }

  /** The rate is never negative and the trend never drops below -100 percent. */
  lemma CadenceBounds(angles: seq<real>, times: seq<real>)
    ensures 0.0 <= CadenceOf(angles, times).value
    ensures -100.0 <= CadenceOf(angles, times).trend
  {
    if 3 <= |angles| && |times| == |angles| {
      CadenceOfVelocityBounds(AngularVelocity(angles, times), times);
    }
  }

  /** When the first third moves, the trend is negative exactly when the last third moves less. */
  lemma TrendSign(firstAvg: real, lastAvg: real)
    requires 0.0 < firstAvg
    ensures Trend(firstAvg, lastAvg) < 0.0 <==> lastAvg < firstAvg
    ensures Trend(firstAvg, lastAvg) == 0.0 <==> lastAvg == firstAvg
  {
    var ratio := (lastAvg - firstAvg) / firstAvg;
    assert ratio * firstAvg == lastAvg - firstAvg;
    if ratio < 0.0 {
      ProductMonotone(ratio, 0.0, firstAvg);
    } else if 0.0 < ratio {
      ProductMonotone(0.0, ratio, firstAvg);
    }
  }

  /** A velocity series that is zero everywhere has no peak, no rate and no trend. */
  lemma StillVelocityNoCadence(v: seq<real>, times: seq<real>)
    requires 3 <= |v| && |times| == |v|
    requires forall k :: 0 <= k < |v| ==> v[k] == 0.0
    ensures CadenceOfVelocity(v, times) == CadenceMetric(0.0, 0.0)
  {
    var threshold := MaxAbs(v) * PeakFraction;
    assert threshold == 0.0;
    NoPeakBelowThreshold(v, threshold, |v| - 1);
    var head := Magnitudes(v[..|v| / 3]);
    assert forall k :: 0 <= k < |head| ==> head[k] == 0.0;
    SumConstant(head, 0.0);
  }

  /** A constant input has zero velocity everywhere, hence no peak, no rate and no trend. */
  lemma ConstantInputNoCadence(angles: seq<real>, times: seq<real>, c: real)
    requires forall k :: 0 <= k < |angles| ==> angles[k] == c
    ensures CadenceOf(angles, times) == CadenceMetric(0.0, 0.0)
  {
    if 3 <= |angles| && |times| == |angles| {
      ConstantAnglesZeroVelocity(angles, times, c);
      StillVelocityNoCadence(AngularVelocity(angles, times), times);
    }
  }

  /** When no magnitude exceeds the threshold, no index is a peak. */
  lemma {:induction false} NoPeakBelowThreshold(v: seq<real>, threshold: real, k: int)
    requires forall i :: 0 <= i < |v| ==> Abs(v[i]) <= threshold
    ensures PeakCount(v, threshold, k) == 0
    decreases k
  {
    if k > 1 {
      NoPeakBelowThreshold(v, threshold, k - 1);
    }
  }
}
