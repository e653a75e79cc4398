/** Health alert engine: per-frame posture rules and the leveled alert list (lib/pose/alerts.ts). */
module Alerts {
  import opened Types
  import opened Utils

  const KneeValgusThreshold: real := 165.0
  const KneeValgusRatioThreshold: real := 0.1
  const AsymmetryThreshold: real := 15.0
  const LumbarFlexionThreshold: real := 160.0
  const LumbarFlexionRatioThreshold: real := 0.1
  const FatigueTrendThreshold: real := -20.0
  const KeypointConfidenceThreshold: real := 0.4

  /** Three joints whose angle is measured at the middle one. */
  datatype Triplet = Triplet(a: JointName, b: JointName, c: JointName)

  const LeftKneeTriplet: Triplet := Triplet(LeftHip, LeftKnee, LeftAnkle)
  const RightKneeTriplet: Triplet := Triplet(RightHip, RightKnee, RightAnkle)
  const LeftTrunkTriplet: Triplet := Triplet(LeftShoulder, LeftHip, LeftKnee)
  const RightTrunkTriplet: Triplet := Triplet(RightShoulder, RightHip, RightKnee)

  /** On this side all three keypoints are reliable and their angle is below `limit`. */
  predicate SideBelow(m: MathLib, f: PoseFrame, side: Triplet, limit: real)
  {
    var a, b, c := Get(f.keypoints, side.a), Get(f.keypoints, side.b), Get(f.keypoints, side.c);
    && IsKeypointReliable(a, KeypointConfidenceThreshold)
    && IsKeypointReliable(b, KeypointConfidenceThreshold)
    && IsKeypointReliable(c, KeypointConfidenceThreshold)
    && ComputeJointAngle(m, a, b, c) < limit
  }

  /** A frame is flagged when either side is below the limit. */
  predicate FrameFlagged(m: MathLib, f: PoseFrame, left: Triplet, right: Triplet, limit: real)
  {
    SideBelow(m, f, left, limit) || SideBelow(m, f, right, limit)
  }

  /** The flagged indices among the first `k` frames, in increasing order. */
  function FlaggedUpTo(m: MathLib, frames: seq<PoseFrame>, left: Triplet, right: Triplet, limit: real, k: nat): (r: seq<nat>)
    requires k <= |frames|
    ensures |r| <= k
    ensures forall j :: 0 <= j < |r| ==> r[j] < k
  {
    if k == 0 then []
    else
      FlaggedUpTo(m, frames, left, right, limit, k - 1)
      + (if FrameFlagged(m, frames[k - 1], left, right, limit) then [k - 1] else [])
  }

  /** The outcome of one per-frame rule. */
  datatype Detection = Detection(ratioFrames: real, flagged: bool, frames: seq<nat>)

  /** What a rule over the given triplets, angle limit and ratio gate reports. */
  function Detect(m: MathLib, frames: seq<PoseFrame>, left: Triplet, right: Triplet, limit: real, gate: real): Detection
  {
    var flaggedFrames := FlaggedUpTo(m, frames, left, right, limit, |frames|);
    var ratio := if |frames| > 0 then |flaggedFrames| as real / |frames| as real else 0.0;
    Detection(ratio, ratio >= gate, flaggedFrames)
  }

  /** Scans the frames, flagging each at most once, then gates on the flagged ratio. */
  method FlagFrames(m: MathLib, frames: seq<PoseFrame>, left: Triplet, right: Triplet, limit: real, gate: real)
    returns (d: Detection)
    ensures d == Detect(m, frames, left, right, limit, gate)
  {
    var flaggedFrames: seq<nat> := [];
    for i := 0 to |frames|
      invariant flaggedFrames == FlaggedUpTo(m, frames, left, right, limit, i)
    {
      var frame := frames[i];
      var a, b, c := Get(frame.keypoints, left.a), Get(frame.keypoints, left.b), Get(frame.keypoints, left.c);
      if IsKeypointReliable(a, KeypointConfidenceThreshold)
        && IsKeypointReliable(b, KeypointConfidenceThreshold)
        && IsKeypointReliable(c, KeypointConfidenceThreshold)
      {
        var angle := ComputeJointAngle(m, a, b, c);
        if angle < limit {
          flaggedFrames := flaggedFrames + [i];
        }
      }
      var aR, bR, cR := Get(frame.keypoints, right.a), Get(frame.keypoints, right.b), Get(frame.keypoints, right.c);
      if IsKeypointReliable(aR, KeypointConfidenceThreshold)
        && IsKeypointReliable(bR, KeypointConfidenceThreshold)
        && IsKeypointReliable(cR, KeypointConfidenceThreshold)
      {
        var angleR := ComputeJointAngle(m, aR, bR, cR);
        if angleR < limit {
          if i !in flaggedFrames {
            flaggedFrames := flaggedFrames + [i];
          }
        }
      }
    }
    var ratioFrames := if |frames| > 0 then |flaggedFrames| as real / |frames| as real else 0.0;
    d := Detection(ratioFrames, ratioFrames >= gate, flaggedFrames);
  }

  /** Knee valgus: hip-knee-ankle below 165 degrees on either side, gated at 10% of the frames. */
  function KneeValgus(m: MathLib, frames: seq<PoseFrame>): Detection
  {
    Detect(m, frames, LeftKneeTriplet, RightKneeTriplet, KneeValgusThreshold, KneeValgusRatioThreshold)
  }

  /** Lumbar flexion: shoulder-hip-knee below 160 degrees on either side, gated at 10% of the frames. */
  function LumbarFlexion(m: MathLib, frames: seq<PoseFrame>): Detection
  {
    Detect(m, frames, LeftTrunkTriplet, RightTrunkTriplet, LumbarFlexionThreshold, LumbarFlexionRatioThreshold)
  }

  method DetectKneeValgus(m: MathLib, frames: seq<PoseFrame>) returns (d: Detection)
    ensures d == KneeValgus(m, frames)
  {
    d := FlagFrames(m, frames, LeftKneeTriplet, RightKneeTriplet, KneeValgusThreshold, KneeValgusRatioThreshold);
  }

  method DetectLumbarFlexion(m: MathLib, frames: seq<PoseFrame>) returns (d: Detection)
    ensures d == LumbarFlexion(m, frames)
  {
    d := FlagFrames(m, frames, LeftTrunkTriplet, RightTrunkTriplet, LumbarFlexionThreshold, LumbarFlexionRatioThreshold);
  }

  /** A frame index is reported exactly when that frame is flagged. */
  lemma {:induction false} FlaggedMembership(m: MathLib, frames: seq<PoseFrame>, left: Triplet, right: Triplet, limit: real, k: nat, i: int)
    requires k <= |frames|
    ensures i in FlaggedUpTo(m, frames, left, right, limit, k) <==> 0 <= i < k && FrameFlagged(m, frames[i], left, right, limit)
  {
    if k > 0 {
      FlaggedMembership(m, frames, left, right, limit, k - 1, i);
    }
  }

  /** The reported indices are strictly increasing, hence free of duplicates. */
  lemma {:induction false} FlaggedIncreasing(m: MathLib, frames: seq<PoseFrame>, left: Triplet, right: Triplet, limit: real, k: nat)
    requires k <= |frames|
    ensures forall p, q :: 0 <= p < q < |FlaggedUpTo(m, frames, left, right, limit, k)| ==>
              FlaggedUpTo(m, frames, left, right, limit, k)[p] < FlaggedUpTo(m, frames, left, right, limit, k)[q]
  {
    if k > 0 {
      FlaggedIncreasing(m, frames, left, right, limit, k - 1);
    }
  }

  /** The ratio is a fraction of the frames, 0 for no frames, and the rule fires exactly when it reaches the gate. */
  lemma DetectionRatio(m: MathLib, frames: seq<PoseFrame>, left: Triplet, right: Triplet, limit: real, gate: real)
    ensures 0.0 <= Detect(m, frames, left, right, limit, gate).ratioFrames <= 1.0
    ensures |frames| == 0 ==> Detect(m, frames, left, right, limit, gate).ratioFrames == 0.0
    ensures Detect(m, frames, left, right, limit, gate).flagged <==> Detect(m, frames, left, right, limit, gate).ratioFrames >= gate
  {
    var n := |frames|;
    if n > 0 {
      var f := FlaggedUpTo(m, frames, left, right, limit, n);
      QuotientAtMost(|f| as real, n as real, 1.0);
    }
  }

  /** When every frame is flagged, the ratio is 1 and the rule fires. */
  lemma {:induction false} AllFramesFlagged(m: MathLib, frames: seq<PoseFrame>, left: Triplet, right: Triplet, limit: real, k: nat)
    requires k <= |frames|
    requires forall i :: 0 <= i < |frames| ==> FrameFlagged(m, frames[i], left, right, limit)
    ensures |FlaggedUpTo(m, frames, left, right, limit, k)| == k
  {
    if k > 0 {
      AllFramesFlagged(m, frames, left, right, limit, k - 1);
    }
  }

  /** When no frame is flagged, nothing is reported and the ratio is 0. */
  lemma {:induction false} NoFrameFlagged(m: MathLib, frames: seq<PoseFrame>, left: Triplet, right: Triplet, limit: real, k: nat)
    requires k <= |frames|
    requires forall i :: 0 <= i < |frames| ==> !FrameFlagged(m, frames[i], left, right, limit)
    ensures FlaggedUpTo(m, frames, left, right, limit, k) == []
  {
    if k > 0 {
      NoFrameFlagged(m, frames, left, right, limit, k - 1);
    }
  }

  // ---- The alert list ----

  const KneeText: string := "Alignement genou à surveiller"
  const KneeRecommendation: string :=
    "Surveille l'alignement lors des flexions. Pense à renforcer les muscles stabilisateurs du genou."
  const AsymmetryRecommendation: string :=
    "Travaille l'équilibre entre gauche et droite pour éviter les déséquilibres musculaires."
  const LumbarText: string := "Posture lombaire à améliorer"
  const LumbarRecommendation: string :=
    "Garde le dos droit et engage les muscles abdominaux pour protéger le bas du dos."
  const FatigueText: string := "Diminution de cadence détectée"
  const FatigueRecommendation: string :=
    "La cadence diminue en fin de séquence. Pense à ajuster l'intensité ou la durée."

  /** The asymmetry text names the segment, or reads "undefined" when the search found none. */
  function AsymmetryText(segment: Option<string>): string
  {
    "Asymétrie gauche/droite détectée (" + (if segment.Some? then segment.value else "undefined") + ")"
  }

  /** `asymmetry[key] || 0` on an insertion-ordered object. */
  function Lookup(d: seq<(string, real)>, key: string): real
  {
    if |d| == 0 then 0.0
    else if d[0].0 == key then d[0].1
    else Lookup(d[1..], key)
  }

  /** The first key, in insertion order, whose value equals `v`. */
  function FindKey(d: seq<(string, real)>, v: real): (r: Option<string>)
  {
    if |d| == 0 then None
    else if d[0].1 == v then Some(d[0].0)
    else FindKey(d[1..], v)
  }

  /** `Math.max` over the five segments, a missing one counting as 0: it bounds each lookup and is one of them. */
  function MaxAsymmetry(d: seq<(string, real)>): (r: real)
    ensures Lookup(d, "elbow") <= r && Lookup(d, "shoulder") <= r && Lookup(d, "hip") <= r
            && Lookup(d, "knee") <= r && Lookup(d, "ankle") <= r
    ensures r == Lookup(d, "elbow") || r == Lookup(d, "shoulder") || r == Lookup(d, "hip")
            || r == Lookup(d, "knee") || r == Lookup(d, "ankle")
  {
    Max(Max(Max(Max(Lookup(d, "elbow"), Lookup(d, "shoulder")), Lookup(d, "hip")), Lookup(d, "knee")), Lookup(d, "ankle"))
  }

  function KneeAlerts(d: Detection): seq<HealthAlert>
  {
    if d.flagged then [HealthAlert(if d.ratioFrames > 0.25 then Risque else Attention, KneeText, KneeRecommendation, Some(d.frames))]
    else []
  }

  function AsymmetryAlerts(asymmetry: seq<(string, real)>): seq<HealthAlert>
  {
    var maxAsymmetry := MaxAsymmetry(asymmetry);
    if maxAsymmetry > AsymmetryThreshold then
      [HealthAlert(if maxAsymmetry > 25.0 then Attention else Info,
                   AsymmetryText(FindKey(asymmetry, maxAsymmetry)), AsymmetryRecommendation, None)]
    else []
  }

  function LumbarAlerts(d: Detection): seq<HealthAlert>
  {
    if d.flagged then [HealthAlert(if d.ratioFrames > 0.25 then Attention else Info, LumbarText, LumbarRecommendation, Some(d.frames))]
    else []
  }

  function FatigueAlerts(cadenceTrend: real): seq<HealthAlert>
  {
    if cadenceTrend < FatigueTrendThreshold then
      [HealthAlert(if cadenceTrend < -30.0 then Attention else Info, FatigueText, FatigueRecommendation, None)]
    else []
  }

  /** The four rules, all evaluated, in the order knee, asymmetry, lumbar, fatigue. */
  function HealthAlerts(m: MathLib, frames: seq<PoseFrame>, asymmetry: seq<(string, real)>, cadenceTrend: real): seq<HealthAlert>
  {
    KneeAlerts(KneeValgus(m, frames)) + AsymmetryAlerts(asymmetry)
    + LumbarAlerts(LumbarFlexion(m, frames)) + FatigueAlerts(cadenceTrend)
  }

  /** Evaluates the four rules, appending one alert per rule that fires. */
  method GenerateHealthAlerts(m: MathLib, frames: seq<PoseFrame>, asymmetry: seq<(string, real)>, cadenceTrend: real)
    returns (alerts: seq<HealthAlert>)
    ensures alerts == HealthAlerts(m, frames, asymmetry, cadenceTrend)
  {
    alerts := [];

    var kneeValgus := DetectKneeValgus(m, frames);
    if kneeValgus.flagged {
      alerts := alerts + [HealthAlert(if kneeValgus.ratioFrames > 0.25 then Risque else Attention,
                                      KneeText, KneeRecommendation, Some(kneeValgus.frames))];
    }
    assert alerts == KneeAlerts(kneeValgus);
    ghost var afterKnee := alerts;

    var maxAsymmetry := MaxAsymmetry(asymmetry);
    if maxAsymmetry > AsymmetryThreshold {
      var segment := FindKey(asymmetry, maxAsymmetry);
      alerts := alerts + [HealthAlert(if maxAsymmetry > 25.0 then Attention else Info,
                                      AsymmetryText(segment), AsymmetryRecommendation, None)];
    }
    assert alerts == afterKnee + AsymmetryAlerts(asymmetry);
    ghost var afterAsymmetry := alerts;

    var lumbarFlexion := DetectLumbarFlexion(m, frames);
    if lumbarFlexion.flagged {
      alerts := alerts + [HealthAlert(if lumbarFlexion.ratioFrames > 0.25 then Attention else Info,
                                      LumbarText, LumbarRecommendation, Some(lumbarFlexion.frames))];
    }
    assert alerts == afterAsymmetry + LumbarAlerts(lumbarFlexion);
    ghost var afterLumbar := alerts;

    if cadenceTrend < FatigueTrendThreshold {
      alerts := alerts + [HealthAlert(if cadenceTrend < -30.0 then Attention else Info,
                                      FatigueText, FatigueRecommendation, None)];
    }
    assert alerts == afterLumbar + FatigueAlerts(cadenceTrend);
  }

  /** The rule an alert comes from, by its fixed recommendation: 0 knee, 1 asymmetry, 2 lumbar, 3 fatigue. */
  function RuleOf(a: HealthAlert): nat
  {
    if a.recommendation == KneeRecommendation then 0
    else if a.recommendation == AsymmetryRecommendation then 1
    else if a.recommendation == LumbarRecommendation then 2
    else if a.recommendation == FatigueRecommendation then 3
    else 4
  }

  /** The four recommendations are distinct, so each alert built by a rule is attributed to that rule. */
  lemma RulesOfRecommendations(level: Level, text: string, frames: Option<seq<nat>>)
    ensures RuleOf(HealthAlert(level, text, KneeRecommendation, frames)) == 0
    ensures RuleOf(HealthAlert(level, text, AsymmetryRecommendation, frames)) == 1
    ensures RuleOf(HealthAlert(level, text, LumbarRecommendation, frames)) == 2
    ensures RuleOf(HealthAlert(level, text, FatigueRecommendation, frames)) == 3
  {
    assert KneeRecommendation != AsymmetryRecommendation && KneeRecommendation != LumbarRecommendation;
    assert KneeRecommendation != FatigueRecommendation && AsymmetryRecommendation != LumbarRecommendation;
    assert AsymmetryRecommendation != FatigueRecommendation && LumbarRecommendation != FatigueRecommendation;
  }

  /** Every alert of the sequence is attributed to `rule`. */
  predicate AllOfRule(alerts: seq<HealthAlert>, rule: nat)
  {
    forall i :: 0 <= i < |alerts| ==> RuleOf(alerts[i]) == rule
  }

  /** Each rule contributes at most one alert, attributed to it. */
  lemma PartsOfRules(m: MathLib, frames: seq<PoseFrame>, asymmetry: seq<(string, real)>, cadenceTrend: real)
    ensures |KneeAlerts(KneeValgus(m, frames))| <= 1 && AllOfRule(KneeAlerts(KneeValgus(m, frames)), 0)
    ensures |AsymmetryAlerts(asymmetry)| <= 1 && AllOfRule(AsymmetryAlerts(asymmetry), 1)
    ensures |LumbarAlerts(LumbarFlexion(m, frames))| <= 1 && AllOfRule(LumbarAlerts(LumbarFlexion(m, frames)), 2)
    ensures |FatigueAlerts(cadenceTrend)| <= 1 && AllOfRule(FatigueAlerts(cadenceTrend), 3)
  {
    var k, s := KneeAlerts(KneeValgus(m, frames)), AsymmetryAlerts(asymmetry);
    var l, f := LumbarAlerts(LumbarFlexion(m, frames)), FatigueAlerts(cadenceTrend);
    if |k| == 1 { RulesOfRecommendations(k[0].level, k[0].text, k[0].frames); }
    if |s| == 1 { RulesOfRecommendations(s[0].level, s[0].text, s[0].frames); }
    if |l| == 1 { RulesOfRecommendations(l[0].level, l[0].text, l[0].frames); }
    if |f| == 1 { RulesOfRecommendations(f[0].level, f[0].text, f[0].frames); }
  }

  /** The rules of the alerts strictly increase along the list. */
  predicate RulesIncreasing(alerts: seq<HealthAlert>)
  {
    forall i, j :: 0 <= i < j < |alerts| ==> RuleOf(alerts[i]) < RuleOf(alerts[j])
  }

  /** Appending at most one alert of a rule above every rule so far keeps the rules increasing. */
  lemma AppendRule(a: seq<HealthAlert>, b: seq<HealthAlert>, rule: nat)
    requires RulesIncreasing(a) && forall i :: 0 <= i < |a| ==> RuleOf(a[i]) < rule
    requires |b| <= 1 && AllOfRule(b, rule)
    ensures RulesIncreasing(a + b)
    ensures forall i :: 0 <= i < |a + b| ==> RuleOf((a + b)[i]) <= rule
  {
  }

  /** The alerts carry strictly increasing rules: each rule at most once, in the order knee, asymmetry, lumbar, fatigue. */
  lemma AlertsOrdered(m: MathLib, frames: seq<PoseFrame>, asymmetry: seq<(string, real)>, cadenceTrend: real)
    ensures |HealthAlerts(m, frames, asymmetry, cadenceTrend)| <= 4
    ensures RulesIncreasing(HealthAlerts(m, frames, asymmetry, cadenceTrend))
  {
    var k, s := KneeAlerts(KneeValgus(m, frames)), AsymmetryAlerts(asymmetry);
    var l, f := LumbarAlerts(LumbarFlexion(m, frames)), FatigueAlerts(cadenceTrend);
    PartsOfRules(m, frames, asymmetry, cadenceTrend);
    AppendRule([], k, 0);
    AppendRule(k, s, 1);
    AppendRule(k + s, l, 2);
    AppendRule(k + s + l, f, 3);
  }

  /** The alerts of one rule, in list order. */
  function OfRule(alerts: seq<HealthAlert>, rule: nat): seq<HealthAlert>
  {
    if |alerts| == 0 then []
    else (if RuleOf(alerts[0]) == rule then [alerts[0]] else []) + OfRule(alerts[1..], rule)
  }

  lemma {:induction false} OfRuleConcat(a: seq<HealthAlert>, b: seq<HealthAlert>, rule: nat)
    ensures OfRule(a + b, rule) == OfRule(a, rule) + OfRule(b, rule)
  {
    if |a| > 0 {
      assert (a + b)[0] == a[0];
      assert (a + b)[1..] == a[1..] + b;
      OfRuleConcat(a[1..], b, rule);
    } else {
      assert a + b == b;
    }
  }

  /** Selecting a rule in a part that holds only that rule, or only another one. */
  lemma OfRulePart(part: seq<HealthAlert>, own: nat, rule: nat)
    requires |part| <= 1 && AllOfRule(part, own)
    ensures OfRule(part, rule) == if rule == own then part else []
  {
    if |part| == 1 {
      assert part[1..] == [];
    }
  }

  /** Selecting one rule in the full list yields exactly that rule's own contribution. */
  lemma AlertsPerRule(m: MathLib, frames: seq<PoseFrame>, asymmetry: seq<(string, real)>, cadenceTrend: real)
    ensures OfRule(HealthAlerts(m, frames, asymmetry, cadenceTrend), 0) == KneeAlerts(KneeValgus(m, frames))
    ensures OfRule(HealthAlerts(m, frames, asymmetry, cadenceTrend), 1) == AsymmetryAlerts(asymmetry)
    ensures OfRule(HealthAlerts(m, frames, asymmetry, cadenceTrend), 2) == LumbarAlerts(LumbarFlexion(m, frames))
    ensures OfRule(HealthAlerts(m, frames, asymmetry, cadenceTrend), 3) == FatigueAlerts(cadenceTrend)
  {
    var k, s := KneeAlerts(KneeValgus(m, frames)), AsymmetryAlerts(asymmetry);
    var l, f := LumbarAlerts(LumbarFlexion(m, frames)), FatigueAlerts(cadenceTrend);
    PartsOfRules(m, frames, asymmetry, cadenceTrend);
    SelectRule(k, s, l, f, 0);
    SelectRule(k, s, l, f, 1);
    SelectRule(k, s, l, f, 2);
    SelectRule(k, s, l, f, 3);
  }

  /** In four parts holding the rules 0, 1, 2 and 3, selecting a rule yields its own part. */
  lemma SelectRule(k: seq<HealthAlert>, s: seq<HealthAlert>, l: seq<HealthAlert>, f: seq<HealthAlert>, rule: nat)
    requires |k| <= 1 && AllOfRule(k, 0) && |s| <= 1 && AllOfRule(s, 1)
    requires |l| <= 1 && AllOfRule(l, 2) && |f| <= 1 && AllOfRule(f, 3)
    requires rule <= 3
    ensures OfRule(k + s + l + f, rule) == [k, s, l, f][rule]
  {
    OfRuleOfParts(k, s, l, f, rule);
    OfRulePart(k, 0, rule);
    OfRulePart(s, 1, rule);
    OfRulePart(l, 2, rule);
    OfRulePart(f, 3, rule);
    if rule == 0 {
      assert OfRule(k + s + l + f, rule) == k + [] + [] + [];
    } else if rule == 1 {
      assert OfRule(k + s + l + f, rule) == [] + s + [] + [];
    } else if rule == 2 {
      assert OfRule(k + s + l + f, rule) == [] + [] + l + [];
    } else {
      assert OfRule(k + s + l + f, rule) == [] + [] + [] + f;
    }
  }

  /** Selecting a rule distributes over the four parts of the list. */
  lemma OfRuleOfParts(k: seq<HealthAlert>, s: seq<HealthAlert>, l: seq<HealthAlert>, f: seq<HealthAlert>, rule: nat)
    ensures OfRule(k + s + l + f, rule) == OfRule(k, rule) + OfRule(s, rule) + OfRule(l, rule) + OfRule(f, rule)
  {
    OfRuleConcat(k + s + l, f, rule);
    OfRuleConcat(k + s, l, rule);
    OfRuleConcat(k, s, rule);
  }

  /** The knee alert fires exactly when the knee valgus rule is flagged; above a quarter of the frames it is a risk. */
  lemma KneeAlertLevel(d: Detection)
    ensures |KneeAlerts(d)| == 1 <==> d.flagged
    ensures d.flagged ==> KneeAlerts(d)[0].level == (if d.ratioFrames > 0.25 then Risque else Attention)
    ensures d.flagged ==> KneeAlerts(d)[0].frames == Some(d.frames)
  {
  }

  /** A non-zero lookup comes from an entry carrying that value. */
  lemma {:induction false} LookupFromEntry(d: seq<(string, real)>, key: string)
    ensures Lookup(d, key) != 0.0 ==> exists i :: 0 <= i < |d| && d[i].1 == Lookup(d, key)
  {
    if |d| > 0 && d[0].0 != key {
      LookupFromEntry(d[1..], key);
      if Lookup(d, key) != 0.0 {
        var i :| 0 <= i < |d[1..]| && d[1..][i].1 == Lookup(d, key);
        assert d[i + 1].1 == Lookup(d, key);
      }
    }
  }

  /** The search finds the first entry carrying the value, and finds one whenever one exists. */
  lemma {:induction false} FindKeyFirst(d: seq<(string, real)>, v: real)
    ensures FindKey(d, v).Some? <==> exists i :: 0 <= i < |d| && d[i].1 == v
    ensures FindKey(d, v).Some? ==> exists i :: 0 <= i < |d| && d[i].1 == v && d[i].0 == FindKey(d, v).value
                                       && forall j :: 0 <= j < i ==> d[j].1 != v
  {
    if |d| > 0 && d[0].1 != v {
      FindKeyFirst(d[1..], v);
      if exists i :: 0 <= i < |d| && d[i].1 == v {
        var i :| 0 <= i < |d| && d[i].1 == v;
        assert d[1..][i - 1].1 == v;
      }
      if FindKey(d, v).Some? {
        var i :| 0 <= i < |d[1..]| && d[1..][i].1 == v && d[1..][i].0 == FindKey(d, v).value
                 && forall j :: 0 <= j < i ==> d[1..][j].1 != v;
        forall j | 0 <= j < i + 1
          ensures d[j].1 != v
        {
          if j > 0 { assert d[j].1 == d[1..][j - 1].1; }
        }
        assert d[i + 1].1 == v && d[i + 1].0 == FindKey(d, v).value;
      }
    }
  }

  /** The maximum of five values is one of them. */
  lemma MaxOfFive(a: real, b: real, c: real, d: real, e: real)
    ensures var r := Max(Max(Max(Max(a, b), c), d), e);
      r == a || r == b || r == c || r == d || r == e
  {
  }

  /** When the asymmetry alert fires, it always names a segment whose value is the maximum. */
  lemma AsymmetryAlertNamesSegment(asymmetry: seq<(string, real)>)
    requires MaxAsymmetry(asymmetry) > AsymmetryThreshold
    ensures FindKey(asymmetry, MaxAsymmetry(asymmetry)).Some?
    ensures exists i :: 0 <= i < |asymmetry| && asymmetry[i].1 == MaxAsymmetry(asymmetry)
                       && asymmetry[i].0 == FindKey(asymmetry, MaxAsymmetry(asymmetry)).value
  {
    var mx := MaxAsymmetry(asymmetry);
    var e, s, h := Lookup(asymmetry, "elbow"), Lookup(asymmetry, "shoulder"), Lookup(asymmetry, "hip");
    var kn, an := Lookup(asymmetry, "knee"), Lookup(asymmetry, "ankle");
    MaxOfFive(e, s, h, kn, an);
    LookupFromEntry(asymmetry, "elbow");
    LookupFromEntry(asymmetry, "shoulder");
    LookupFromEntry(asymmetry, "hip");
    LookupFromEntry(asymmetry, "knee");
    LookupFromEntry(asymmetry, "ankle");
    assert exists i :: 0 <= i < |asymmetry| && asymmetry[i].1 == mx;
    FindKeyFirst(asymmetry, mx);
  }

  // ---- The detector's reference scenarios ----

  /** A frame whose only detected keypoints are the given left hip, knee and ankle. */
  function LeftLegFrame(hip: Keypoint, knee: Keypoint, ankle: Keypoint, t: real): PoseFrame
  {
    PoseFrame(AllPlaceholders.(leftHip := hip, leftKnee := knee, leftAnkle := ankle), t)
  }

  const StraightHip: Keypoint := Keypoint(0.5, 0.3, 0.9)
  const StraightKnee: Keypoint := Keypoint(0.5, 0.5, 0.9)
  const StraightAnkle: Keypoint := Keypoint(0.5, 0.7, 0.9)

  /** Hip, knee and ankle stacked vertically form a straight 180-degree knee. */
  lemma StraightKneeAngle(m: MathLib)
    requires Lawful(m)
    ensures ComputeJointAngle(m, StraightHip, StraightKnee, StraightAnkle) == 180.0
  {
    SqrtOfSquare(m, 0.2);
    SqrtOfSquare(m, 0.4);
    assert Distance(m, StraightHip, StraightKnee) == m.sqrt(0.2 * 0.2) == 0.2;
    assert Distance(m, StraightKnee, StraightAnkle) == m.sqrt(0.2 * 0.2) == 0.2;
    assert Distance(m, StraightHip, StraightAnkle) == m.sqrt(0.4 * 0.4) == 0.4;
    assert (Square(0.2) + Square(0.2) - Square(0.4)) / (2.0 * 0.2 * 0.2) == -1.0;
    assert m.acos(Clamp(-1.0)) == Pi;
  }

  /** A straight left leg, with the right side undetected, is never flagged for knee valgus. */
  lemma StraightLegNoValgus(m: MathLib, frames: seq<PoseFrame>)
    requires Lawful(m)
    requires forall i :: 0 <= i < |frames| ==> frames[i] == LeftLegFrame(StraightHip, StraightKnee, StraightAnkle, frames[i].t)
    ensures KneeValgus(m, frames) == Detection(0.0, false, [])
    ensures KneeAlerts(KneeValgus(m, frames)) == []
  {
    StraightKneeAngle(m);
    forall i | 0 <= i < |frames|
      ensures !FrameFlagged(m, frames[i], LeftKneeTriplet, RightKneeTriplet, KneeValgusThreshold)
    {
      assert Get(frames[i].keypoints, RightHip) == Placeholder;
    }
    NoFrameFlagged(m, frames, LeftKneeTriplet, RightKneeTriplet, KneeValgusThreshold, |frames|);
  }

  /** When every frame shows valgus, all frames are reported, the ratio is 1 and the alert is a risk. */
  lemma EveryFrameValgus(m: MathLib, frames: seq<PoseFrame>)
    requires |frames| > 0
    requires forall i :: 0 <= i < |frames| ==> FrameFlagged(m, frames[i], LeftKneeTriplet, RightKneeTriplet, KneeValgusThreshold)
    ensures KneeValgus(m, frames).ratioFrames == 1.0 && KneeValgus(m, frames).flagged
    ensures |KneeValgus(m, frames).frames| == |frames|
    ensures KneeAlerts(KneeValgus(m, frames)) ==
              [HealthAlert(Risque, KneeText, KneeRecommendation, Some(KneeValgus(m, frames).frames))]
  {
    AllFramesFlagged(m, frames, LeftKneeTriplet, RightKneeTriplet, KneeValgusThreshold, |frames|);
  }
}
