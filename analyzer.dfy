/** The analysis pipeline run once per video: angles, velocities, asymmetry, cadence, alerts (components/PoseAnalyzer.tsx). */
module Analyzer {
  import opened Types
  import opened Utils
  import opened Angles
  import opened Velocity
  import opened Asymmetry
  import opened Cadence
  import opened Alerts

  /** The timestamps of the frames. */
  function Times(frames: seq<PoseFrame>): (times: seq<real>)
    ensures |times| == |frames|
    ensures forall i :: 0 <= i < |frames| ==> times[i] == frames[i].t
  {
    seq(|frames|, i requires 0 <= i < |frames| => frames[i].t)
  }

  /** One velocity series per angle entry, under the same key and in the same order. */
  function VelocityEntries(entries: seq<(string, seq<real>)>, times: seq<real>): (r: seq<(string, seq<real>)>)
    ensures |r| == |entries|
    ensures forall i :: 0 <= i < |entries| ==> r[i] == (entries[i].0, AngularVelocity(entries[i].1, times))
  {
    seq(|entries|, i requires 0 <= i < |entries| => (entries[i].0, AngularVelocity(entries[i].1, times)))
  }

  /** Builds the velocity object entry by entry, in the angle object's insertion order. */
  method ComputeVelocities(angles: JointAngles, times: seq<real>) returns (angularVelocities: seq<(string, seq<real>)>)
    ensures angularVelocities == VelocityEntries(AngleEntries(angles), times)
  {
    var entries := AngleEntries(angles);
    angularVelocities := [];
    for i := 0 to |entries|
      invariant angularVelocities == VelocityEntries(entries[..i], times)
    {
      var (key, values) := entries[i];
      var velocity := ComputeAngularVelocity(values, times);
      angularVelocities := angularVelocities + [(key, velocity)];
    }
    assert entries[..|entries|] == entries;
  }

  /** The asymmetry of each left/right pair of angle series; none is negative. */
  function SegmentAsymmetries(angles: JointAngles): (r: SegmentAsymmetry)
    ensures 0.0 <= r.elbow && 0.0 <= r.shoulder && 0.0 <= r.hip && 0.0 <= r.knee && 0.0 <= r.ankle
  {
    SegmentAsymmetry(
      ComputeAsymmetry(angles.leftElbow, angles.rightElbow),
      ComputeAsymmetry(angles.leftShoulder, angles.rightShoulder),
      ComputeAsymmetry(angles.leftHip, angles.rightHip),
      ComputeAsymmetry(angles.leftKnee, angles.rightKnee),
      ComputeAsymmetry(angles.leftAnkle, angles.rightAnkle))
  }

  /** The same series with every left and right side exchanged. */
  function Mirrored(a: JointAngles): JointAngles
  {
    JointAngles(a.rightElbow, a.leftElbow, a.rightShoulder, a.leftShoulder, a.rightHip, a.leftHip,
                a.rightKnee, a.leftKnee, a.rightAnkle, a.leftAnkle)
  }

  /** Exchanging left and right leaves every segment's asymmetry unchanged. */
  lemma MirroredAsymmetries(angles: JointAngles)
    ensures SegmentAsymmetries(Mirrored(angles)) == SegmentAsymmetries(angles)
  {
    AsymmetrySymmetric(angles.leftElbow, angles.rightElbow);
    AsymmetrySymmetric(angles.leftShoulder, angles.rightShoulder);
    AsymmetrySymmetric(angles.leftHip, angles.rightHip);
    AsymmetrySymmetric(angles.leftKnee, angles.rightKnee);
    AsymmetrySymmetric(angles.leftAnkle, angles.rightAnkle);
  }

  /** Sum over the entries of the magnitude at index `i`, a missing sample counting as 0. */
  function MagnitudeSumAt(velocities: seq<(string, seq<real>)>, i: int): (r: real)
    ensures 0.0 <= r
  {
    if |velocities| == 0 then 0.0
    else
      var vel := velocities[|velocities| - 1].1;
      MagnitudeSumAt(velocities[..|velocities| - 1], i) + Abs(if 0 <= i < |vel| then vel[i] else 0.0)
  }

  /** Per frame, the mean magnitude over all velocity series. */
  function AverageVelocities(velocities: seq<(string, seq<real>)>, times: seq<real>): (avg: seq<real>)
    requires |velocities| > 0
    ensures |avg| == |times|
  {
    seq(|times|, i requires 0 <= i < |times| => MagnitudeSumAt(velocities, i) / |Keys(velocities)| as real)
  }

  /** The metrics record and the alerts of one analysed clip. */
  function Analysis(m: MathLib, frames: seq<PoseFrame>): (Metrics, seq<HealthAlert>)
  {
    var angles := AllAngles(m, frames);
    var times := Times(frames);
    var angularVelocities := VelocityEntries(AngleEntries(angles), times);
    var asymmetry := SegmentAsymmetries(angles);
    var cadence := CadenceOf(AverageVelocities(angularVelocities, times), times);
    (Metrics(angles, angularVelocities, asymmetry, cadence),
     HealthAlerts(m, frames, AsymmetryEntries(asymmetry), cadence.trend))
  }

  /** Runs the whole pipeline over the sampled frames. */
  method Analyze(m: MathLib, frames: seq<PoseFrame>) returns (metrics: Metrics, alerts: seq<HealthAlert>)
    ensures (metrics, alerts) == Analysis(m, frames)
  {
    var angles := ExtractAllAngles(m, frames);
    var times := Times(frames);

    var angularVelocities := ComputeVelocities(angles, times);

    var asymmetry := SegmentAsymmetries(angles);

    var avgVelocities := AverageVelocities(angularVelocities, times);
    var cadence := ComputeCadence(avgVelocities, times);

    metrics := Metrics(angles, angularVelocities, asymmetry, cadence);

    alerts := GenerateHealthAlerts(m, frames, AsymmetryEntries(asymmetry), cadence.trend);
  }

  /** The velocity entries carry the angle entries' keys in order, each series as long as its angle series. */
  lemma VelocityEntriesShape(entries: seq<(string, seq<real>)>, times: seq<real>)
    ensures Keys(VelocityEntries(entries, times)) == Keys(entries)
    ensures forall i :: 0 <= i < |entries| ==> |VelocityEntries(entries, times)[i].1| == |entries[i].1|
  {
    var ks, vs := Keys(entries), Keys(VelocityEntries(entries, times));
    assert |ks| == |vs| && forall i :: 0 <= i < |ks| ==> ks[i] == vs[i];
  }

  /** In an analysis, the velocity object has exactly the ten angle keys, in order, and one sample per frame. */
  lemma VelocityKeysMatchAngles(m: MathLib, frames: seq<PoseFrame>)
    ensures var vels := VelocityEntries(AngleEntries(AllAngles(m, frames)), Times(frames));
      && Keys(vels) == Keys(AngleEntries(AllAngles(m, frames)))
      && |vels| == 10
      && forall i :: 0 <= i < |vels| ==> |vels[i].1| == |frames|
  {
    var entries := AngleEntries(AllAngles(m, frames));
    assert forall i :: 0 <= i < |entries| ==> |entries[i].1| == |frames|;
    VelocityEntriesShape(entries, Times(frames));
  }

  /** The per-frame mean magnitudes are never negative. */
  lemma AverageVelocitiesNonNegative(velocities: seq<(string, seq<real>)>, times: seq<real>)
    requires |velocities| > 0
    ensures forall i :: 0 <= i < |times| ==> 0.0 <= AverageVelocities(velocities, times)[i]
  {
  }

  /** The five asymmetry values are never negative, the cadence is never negative and its trend never below -100%. */
  lemma MetricsBounds(m: MathLib, frames: seq<PoseFrame>)
    ensures var a := Analysis(m, frames).0.asymmetry;
      0.0 <= a.elbow && 0.0 <= a.shoulder && 0.0 <= a.hip && 0.0 <= a.knee && 0.0 <= a.ankle
    ensures 0.0 <= Analysis(m, frames).0.cadence.value
    ensures -100.0 <= Analysis(m, frames).0.cadence.trend
  {
    var angles := AllAngles(m, frames);
    var times := Times(frames);
    var vels := VelocityEntries(AngleEntries(angles), times);
    CadenceBounds(AverageVelocities(vels, times), times);
  }

  /** The alerts of an analysis follow the fixed rule order, at most one per rule. */
  lemma AnalysisAlertsOrdered(m: MathLib, frames: seq<PoseFrame>)
    ensures |Analysis(m, frames).1| <= 4
    ensures RulesIncreasing(Analysis(m, frames).1)
  {
    var asymmetry := Analysis(m, frames).0.asymmetry;
    AlertsOrdered(m, frames, AsymmetryEntries(asymmetry), Analysis(m, frames).0.cadence.trend);
  }

  /** Looking a segment up in the asymmetry object reads back its field. */
  lemma AsymmetryLookups(s: SegmentAsymmetry)
    ensures MaxAsymmetry(AsymmetryEntries(s)) == Max(Max(Max(Max(s.elbow, s.shoulder), s.hip), s.knee), s.ankle)
  {
    var d4: seq<(string, real)> := [("ankle", s.ankle)];
    var d3 := [("knee", s.knee)] + d4;
    var d2 := [("hip", s.hip)] + d3;
    var d1 := [("shoulder", s.shoulder)] + d2;
    var d := [("elbow", s.elbow)] + d1;
    assert d == AsymmetryEntries(s);
    assert d[1..] == d1 && d1[1..] == d2 && d2[1..] == d3 && d3[1..] == d4;
    assert Lookup(d, "elbow") == s.elbow;
    assert Lookup(d, "shoulder") == Lookup(d1, "shoulder") == s.shoulder;
    assert Lookup(d, "hip") == Lookup(d1, "hip") == Lookup(d2, "hip") == s.hip;
    assert Lookup(d, "knee") == Lookup(d1, "knee") == Lookup(d2, "knee") == Lookup(d3, "knee") == s.knee;
    assert Lookup(d, "ankle") == Lookup(d1, "ankle") == Lookup(d2, "ankle") == Lookup(d3, "ankle") == Lookup(d4, "ankle");
  }

  /** A clip of fewer than three frames has no cadence, so it never raises the fatigue alert. */
  lemma ShortClipNoFatigue(m: MathLib, frames: seq<PoseFrame>)
    requires |frames| < 3
    ensures Analysis(m, frames).0.cadence == CadenceMetric(0.0, 0.0)
    ensures OfRule(Analysis(m, frames).1, 3) == []
  {
    var asymmetry := Analysis(m, frames).0.asymmetry;
    AlertsPerRule(m, frames, AsymmetryEntries(asymmetry), Analysis(m, frames).0.cadence.trend);
  }
}
