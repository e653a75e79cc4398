/** Converting one detector result into a frame's keypoints, and the frame used when nothing is detected (lib/hooks/usePoseModel.ts). */
module PoseModel {
  import opened Types
  import opened Utils

  /** One keypoint as the detector reports it: a free-form name, a position and an optional score. */
  datatype DetectedKeypoint = DetectedKeypoint(name: string, x: real, y: real, score: Option<real>)

  predicate StartsWith(s: string, prefix: string)
  {
    |prefix| <= |s| && s[..|prefix|] == prefix
  }

  /** `s.includes(sub)`. */
  predicate Contains(s: string, sub: string)
  {
    StartsWith(s, sub) || (|s| > 0 && Contains(s[1..], sub))
  }

  /** The first of `names`, in order, whose spelling `name` contains. */
  function FirstContained(name: string, names: seq<JointName>): (r: Option<JointName>)
    ensures r.Some? ==> r.value in names && Contains(name, CanonicalName(r.value))
  {
    if |names| == 0 then None
    else if Contains(name, CanonicalName(names[0])) then Some(names[0])
    else FirstContained(name, names[1..])
  }

  /** The canonical name a detector name maps to: the first one it contains, in the fixed order. */
  function MapName(name: string): (r: Option<JointName>)
    ensures r.Some? ==> Contains(name, CanonicalName(r.value))
  {
    FirstContained(name, KeypointNames)
  }

  /** `kp.score || 0`: a missing score counts as 0. */
  function ScoreOrZero(score: Option<real>): real
  {
    if score.Some? then score.value else 0.0
  }

  function Converted(kp: DetectedKeypoint): Keypoint
  {
    Keypoint(kp.x, kp.y, ScoreOrZero(kp.score))
  }

  /** The partial record after processing the detections in order: a later detection overwrites an earlier one. */
  function Found(detections: seq<DetectedKeypoint>): map<JointName, Keypoint>
  {
    if |detections| == 0 then map[]
    else
      var found := Found(detections[..|detections| - 1]);
      var kp := detections[|detections| - 1];
      var mapped := MapName(kp.name);
      if mapped.Some? then found[mapped.value := Converted(kp)] else found
  }

  /** The keypoint recorded for `j`, or the zero-score placeholder. */
  function OrPlaceholder(found: map<JointName, Keypoint>, j: JointName): Keypoint
  {
    if j in found then found[j] else Placeholder
  }

  /** Every joint name appears in the fixed list. */
  lemma AllNamesListed(j: JointName)
    ensures j in KeypointNames
  {
  }

  /** A record holding all 17 names, read as keypoints. */
  function FromMap(result: map<JointName, Keypoint>): (k: Keypoints)
    requires forall j: JointName :: j in result
    ensures forall j: JointName :: Get(k, j) == result[j]
  {
    Keypoints(
      result[Nose], result[LeftEye], result[RightEye], result[LeftEar], result[RightEar],
      result[LeftShoulder], result[RightShoulder], result[LeftElbow], result[RightElbow],
      result[LeftWrist], result[RightWrist], result[LeftHip], result[RightHip],
      result[LeftKnee], result[RightKnee], result[LeftAnkle], result[RightAnkle])
  }

  /** Fills every canonical name, in the fixed order, from `found` or with the placeholder. */
  method FillMissing(found: map<JointName, Keypoint>) returns (k: Keypoints)
    ensures forall j: JointName :: Get(k, j) == OrPlaceholder(found, j)
  {
    var result: map<JointName, Keypoint> := map[];
    for i := 0 to |KeypointNames|
      invariant forall q :: 0 <= q < i ==> KeypointNames[q] in result
      invariant forall j :: j in result ==> result[j] == OrPlaceholder(found, j)
    {
      var name := KeypointNames[i];
      result := result[name := if name in found then found[name] else Placeholder];
    }
    forall j: JointName
      ensures j in result
    {
      AllNamesListed(j);
    }
    k := FromMap(result);
  }

  /** Maps one detector result onto the 17 canonical names. */
  method MapMoveNetToKeypoints(detections: seq<DetectedKeypoint>) returns (k: Keypoints)
    ensures forall j: JointName :: Get(k, j) == OrPlaceholder(Found(detections), j)
  {
    var keypoints: map<JointName, Keypoint> := map[];
    for i := 0 to |detections|
      invariant keypoints == Found(detections[..i])
    {
      var kp := detections[i];
      var mappedName := MapName(kp.name);
      if mappedName.Some? {
        keypoints := keypoints[mappedName.value := Keypoint(kp.x, kp.y, ScoreOrZero(kp.score))];
      }
      assert detections[..i + 1][..i] == detections[..i];
    }
    assert detections[..|detections|] == detections;
    k := FillMissing(keypoints);
  }

  /** The frame recorded when the detector finds no pose: every name at the placeholder. */
  method EmptyKeypoints() returns (k: Keypoints)
    ensures k == AllPlaceholders
  {
    k := FillMissing(map[]);
    KeypointsExtensional(k, AllPlaceholders);
  }

  /** A mapped name is contained in the detector name, and no earlier canonical name is; no match means none is contained. */
  lemma {:induction false} FirstContainedFirst(name: string, names: seq<JointName>)
    ensures FirstContained(name, names).Some? ==>
              exists p :: 0 <= p < |names| && names[p] == FirstContained(name, names).value
                          && Contains(name, CanonicalName(names[p]))
                          && forall q :: 0 <= q < p ==> !Contains(name, CanonicalName(names[q]))
    ensures FirstContained(name, names).None? <==> forall q :: 0 <= q < |names| ==> !Contains(name, CanonicalName(names[q]))
  {
    if |names| > 0 && !Contains(name, CanonicalName(names[0])) {
      FirstContainedFirst(name, names[1..]);
      if FirstContained(name, names).Some? {
        var p :| 0 <= p < |names[1..]| && names[1..][p] == FirstContained(name, names).value
                 && Contains(name, CanonicalName(names[1..][p]))
                 && forall q :: 0 <= q < p ==> !Contains(name, CanonicalName(names[1..][q]));
        forall q | 0 <= q < p + 1
          ensures !Contains(name, CanonicalName(names[q]))
        {
          if q > 0 { assert names[q] == names[1..][q - 1]; }
        }
        assert names[p + 1] == names[1..][p];
      }
      forall q | 0 < q < |names|
        ensures names[q] == names[1..][q - 1]
      {
      }
    }
  }

  /** `MapName` picks the first canonical name, in the fixed order, that the detector name contains. */
  lemma MapNameFirstMatch(name: string)
    ensures MapName(name).Some? ==>
              exists p :: 0 <= p < |KeypointNames| && KeypointNames[p] == MapName(name).value
                          && Contains(name, CanonicalName(KeypointNames[p]))
                          && forall q :: 0 <= q < p ==> !Contains(name, CanonicalName(KeypointNames[q]))
    ensures MapName(name).None? <==> forall q :: 0 <= q < |KeypointNames| ==> !Contains(name, CanonicalName(KeypointNames[q]))
  {
    FirstContainedFirst(name, KeypointNames);
  }

  /** A name is recorded exactly when some detection maps to it. */
  lemma {:induction false} FoundMembership(detections: seq<DetectedKeypoint>, j: JointName)
    ensures j in Found(detections) <==> exists i :: 0 <= i < |detections| && MapName(detections[i].name) == Some(j)
  {
    if |detections| > 0 {
      var init := detections[..|detections| - 1];
      FoundMembership(init, j);
      assert forall i :: 0 <= i < |init| ==> init[i] == detections[i];
    }
  }

  /** A recorded name holds the last detection that maps to it. */
  lemma {:induction false} FoundLastWins(detections: seq<DetectedKeypoint>, j: JointName, i: int)
    requires 0 <= i < |detections| && MapName(detections[i].name) == Some(j)
    requires forall later :: i < later < |detections| ==> MapName(detections[later].name) != Some(j)
    ensures j in Found(detections) && Found(detections)[j] == Converted(detections[i])
  {
    var n := |detections|;
    var init := detections[..n - 1];
    if i < n - 1 {
      assert forall k :: 0 <= k < |init| ==> init[k] == detections[k];
      FoundLastWins(init, j, i);
    }
  }

  /** A canonical name no detection maps to gets the zero-score placeholder. */
  lemma UnmatchedNameIsPlaceholder(detections: seq<DetectedKeypoint>, j: JointName)
    requires forall i :: 0 <= i < |detections| ==> MapName(detections[i].name) != Some(j)
    ensures OrPlaceholder(Found(detections), j) == Placeholder
  {
    FoundMembership(detections, j);
  }

  /** A missing score becomes 0, and a reported score is kept. */
  lemma ScoreDefaultsToZero(kp: DetectedKeypoint)
    ensures Converted(kp).score == (if kp.score.Some? then kp.score.value else 0.0)
    ensures kp.score.None? ==> !IsKeypointReliable(Converted(kp), DefaultThreshold)
  {
  }

  /** The empty frame is what mapping no detection at all yields, and no keypoint of it is reliable at any positive threshold. */
  lemma EmptyFrameUnreliable(j: JointName, threshold: real)
    requires 0.0 < threshold
    ensures OrPlaceholder(Found([]), j) == Get(AllPlaceholders, j)
    ensures !IsKeypointReliable(Get(AllPlaceholders, j), threshold)
  {
  }
}
