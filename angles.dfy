/** Per-frame joint angles with carry-forward over unreliable frames, then smoothing (lib/pose/angles.ts). */
module Angles {
  import opened Types
  import opened Utils

  const KeypointConfidenceThreshold: real := 0.4
  const SmoothingWindow: nat := 3

  /** Picks one keypoint out of a frame; may yield nothing. */
  type Selector = PoseFrame -> Option<Keypoint>

  /** All three selected keypoints exist and are reliable at 0.4. */
  predicate AllReliable(a: Option<Keypoint>, b: Option<Keypoint>, c: Option<Keypoint>)
  {
    && a.Some? && b.Some? && c.Some?
    && IsKeypointReliable(a.value, KeypointConfidenceThreshold)
    && IsKeypointReliable(b.value, KeypointConfidenceThreshold)
    && IsKeypointReliable(c.value, KeypointConfidenceThreshold)
  }

  /** Whether the triplet is usable at frame `f`. */
  predicate ReliableAt(f: PoseFrame, ja: Selector, jb: Selector, jc: Selector)
  {
    AllReliable(ja(f), jb(f), jc(f))
  }

  /** The angle of the triplet at a frame where it is usable. */
  function AngleAt(m: MathLib, f: PoseFrame, ja: Selector, jb: Selector, jc: Selector): real
    requires ReliableAt(f, ja, jb, jc)
  {
    ComputeJointAngle(m, ja(f).value, jb(f).value, jc(f).value)
  }

  /**
   * The raw series before smoothing: the angle where the triplet is usable,
   * otherwise the previous raw value, or 0 before the first one.
   */
  function RawAngles(m: MathLib, frames: seq<PoseFrame>, ja: Selector, jb: Selector, jc: Selector): (raw: seq<real>)
    ensures |raw| == |frames|
  {
    if |frames| == 0 then []
    else
      var prev := RawAngles(m, frames[..|frames| - 1], ja, jb, jc);
      var f := frames[|frames| - 1];
      prev + [if ReliableAt(f, ja, jb, jc) then AngleAt(m, f, ja, jb, jc)
              else if |prev| > 0 then prev[|prev| - 1] else 0.0]
  }

  /** The smoothed angle series of one triplet. */
  function Extracted(m: MathLib, frames: seq<PoseFrame>, ja: Selector, jb: Selector, jc: Selector): seq<real>
  {
    Smoothed(RawAngles(m, frames, ja, jb, jc), SmoothingWindow)
  }

  /** One angle per frame, carrying the last value over unreliable frames, then smoothed with window 3. */
  method ExtractAngles(m: MathLib, frames: seq<PoseFrame>, ja: Selector, jb: Selector, jc: Selector)
    returns (r: seq<real>)
    ensures |r| == |frames|
    ensures r == Extracted(m, frames, ja, jb, jc)
  {
    var angles: seq<real> := [];
    var i := 0;
    while i < |frames|
      invariant 0 <= i <= |frames|
      invariant angles == RawAngles(m, frames[..i], ja, jb, jc)
    {
      var frame := frames[i];
      var a, b, c := ja(frame), jb(frame), jc(frame);
      if a.Some? && b.Some? && c.Some?
        && IsKeypointReliable(a.value, KeypointConfidenceThreshold)
        && IsKeypointReliable(b.value, KeypointConfidenceThreshold)
        && IsKeypointReliable(c.value, KeypointConfidenceThreshold)
      {
        var angle := ComputeJointAngle(m, a.value, b.value, c.value);
        angles := angles + [angle];
      } else {
        angles := angles + [if |angles| > 0 then angles[|angles| - 1] else 0.0];
      }
      assert frames[..i + 1][..i] == frames[..i];
      i := i + 1;
    }
    assert frames[..|frames|] == frames;
    r := SmoothArray(angles, SmoothingWindow);
  }

  /** The raw series of a prefix of the frames is the prefix of the raw series. */
  lemma {:induction false} RawAnglesPrefix(m: MathLib, frames: seq<PoseFrame>, ja: Selector, jb: Selector, jc: Selector, k: nat)
    requires k <= |frames|
    ensures RawAngles(m, frames[..k], ja, jb, jc) == RawAngles(m, frames, ja, jb, jc)[..k]
    decreases |frames|
  {
    if k < |frames| {
      var init := frames[..|frames| - 1];
      assert init[..k] == frames[..k];
      RawAnglesPrefix(m, init, ja, jb, jc, k);
    } else {
      assert frames[..k] == frames;
    }
  }

  /** The carry-forward rule, frame by frame. */
  lemma RawAngleAt(m: MathLib, frames: seq<PoseFrame>, ja: Selector, jb: Selector, jc: Selector, i: nat)
    requires i < |frames|
    ensures ReliableAt(frames[i], ja, jb, jc) ==>
              RawAngles(m, frames, ja, jb, jc)[i] == AngleAt(m, frames[i], ja, jb, jc)
    ensures !ReliableAt(frames[i], ja, jb, jc) && i == 0 ==> RawAngles(m, frames, ja, jb, jc)[i] == 0.0
    ensures !ReliableAt(frames[i], ja, jb, jc) && i > 0 ==>
              RawAngles(m, frames, ja, jb, jc)[i] == RawAngles(m, frames, ja, jb, jc)[i - 1]
  {
    RawAnglesPrefix(m, frames, ja, jb, jc, i + 1);
    assert frames[..i + 1][..i] == frames[..i];
    assert frames[..i + 1][i] == frames[i];
  }

  /** Without any usable frame, every raw value is the initial 0. */
  lemma {:induction false} NoReliableFrameAllZero(m: MathLib, frames: seq<PoseFrame>, ja: Selector, jb: Selector, jc: Selector)
    requires forall i :: 0 <= i < |frames| ==> !ReliableAt(frames[i], ja, jb, jc)
    ensures forall i :: 0 <= i < |frames| ==> RawAngles(m, frames, ja, jb, jc)[i] == 0.0
  {
    if |frames| > 0 {
      var init := frames[..|frames| - 1];
      NoReliableFrameAllZero(m, init, ja, jb, jc);
    }
  }

  /** Every raw value is an angle, hence in [0, 180]. */
  lemma {:induction false} RawAnglesInRange(m: MathLib, frames: seq<PoseFrame>, ja: Selector, jb: Selector, jc: Selector)
    requires Lawful(m)
    ensures forall i :: 0 <= i < |frames| ==> 0.0 <= RawAngles(m, frames, ja, jb, jc)[i] <= 180.0
  {
    if |frames| > 0 {
      var init := frames[..|frames| - 1];
      RawAnglesInRange(m, init, ja, jb, jc);
    }
  }

  /** Every extracted value lies in [0, 180], because averaging keeps the raw bounds. */
  lemma ExtractedInRange(m: MathLib, frames: seq<PoseFrame>, ja: Selector, jb: Selector, jc: Selector)
    requires Lawful(m)
    ensures forall i :: 0 <= i < |frames| ==> 0.0 <= Extracted(m, frames, ja, jb, jc)[i] <= 180.0
  {
    RawAnglesInRange(m, frames, ja, jb, jc);
    SmoothedWithin(RawAngles(m, frames, ja, jb, jc), SmoothingWindow, 0.0, 180.0);
  }

  /** Without any usable frame, the extracted series is all zeros. */
  lemma NoReliableFrameExtractedZero(m: MathLib, frames: seq<PoseFrame>, ja: Selector, jb: Selector, jc: Selector)
    requires forall i :: 0 <= i < |frames| ==> !ReliableAt(frames[i], ja, jb, jc)
    ensures forall i :: 0 <= i < |frames| ==> Extracted(m, frames, ja, jb, jc)[i] == 0.0
  {
    NoReliableFrameAllZero(m, frames, ja, jb, jc);
    SmoothedConstant(RawAngles(m, frames, ja, jb, jc), SmoothingWindow, 0.0);
  }

  // ---- The ten triplets ----

  /** Reads the named keypoint of a frame. */
  function At(j: JointName): Selector
  {
    (f: PoseFrame) => Some(Get(f.keypoints, j))
  }

  /** The synthetic point 50 units below an ankle, always at score 1 (there is no toe keypoint). */
  function BelowAnkle(j: JointName): Selector
  {
    (f: PoseFrame) => Some(Keypoint(Get(f.keypoints, j).x, Get(f.keypoints, j).y + 50.0, 1.0))
  }

  /** The synthetic point is always present and reliable. */
  lemma BelowAnkleReliable(j: JointName, f: PoseFrame)
    ensures BelowAnkle(j)(f).Some?
    ensures IsKeypointReliable(BelowAnkle(j)(f).value, KeypointConfidenceThreshold)
    ensures BelowAnkle(j)(f).value.x == Get(f.keypoints, j).x
    ensures BelowAnkle(j)(f).value.y == Get(f.keypoints, j).y + 50.0
  {
  }

  /** The ankle triplet is usable exactly when the knee and the ankle are reliable. */
  lemma AnkleTripletReliable(f: PoseFrame, knee: JointName, ankle: JointName)
    ensures ReliableAt(f, At(knee), At(ankle), BelowAnkle(ankle)) <==>
              IsKeypointReliable(Get(f.keypoints, knee), KeypointConfidenceThreshold)
              && IsKeypointReliable(Get(f.keypoints, ankle), KeypointConfidenceThreshold)
  {
  }

  /** The ten angle series, each over its fixed triplet. */
  function AllAngles(m: MathLib, frames: seq<PoseFrame>): JointAngles
  {
    JointAngles(
      leftElbow := Extracted(m, frames, At(LeftShoulder), At(LeftElbow), At(LeftWrist)),
      rightElbow := Extracted(m, frames, At(RightShoulder), At(RightElbow), At(RightWrist)),
      leftShoulder := Extracted(m, frames, At(LeftElbow), At(LeftShoulder), At(LeftHip)),
      rightShoulder := Extracted(m, frames, At(RightElbow), At(RightShoulder), At(RightHip)),
      leftHip := Extracted(m, frames, At(LeftShoulder), At(LeftHip), At(LeftKnee)),
      rightHip := Extracted(m, frames, At(RightShoulder), At(RightHip), At(RightKnee)),
      leftKnee := Extracted(m, frames, At(LeftHip), At(LeftKnee), At(LeftAnkle)),
      rightKnee := Extracted(m, frames, At(RightHip), At(RightKnee), At(RightAnkle)),
      leftAnkle := Extracted(m, frames, At(LeftKnee), At(LeftAnkle), BelowAnkle(LeftAnkle)),
      rightAnkle := Extracted(m, frames, At(RightKnee), At(RightAnkle), BelowAnkle(RightAnkle)))
  }

  /** Extracts the ten named series from the frames. */
  method ExtractAllAngles(m: MathLib, frames: seq<PoseFrame>) returns (angles: JointAngles)
    ensures angles == AllAngles(m, frames)
  {
    var leftElbow := ExtractAngles(m, frames, At(LeftShoulder), At(LeftElbow), At(LeftWrist));
    var rightElbow := ExtractAngles(m, frames, At(RightShoulder), At(RightElbow), At(RightWrist));
    var leftShoulder := ExtractAngles(m, frames, At(LeftElbow), At(LeftShoulder), At(LeftHip));
    var rightShoulder := ExtractAngles(m, frames, At(RightElbow), At(RightShoulder), At(RightHip));
    var leftHip := ExtractAngles(m, frames, At(LeftShoulder), At(LeftHip), At(LeftKnee));
    var rightHip := ExtractAngles(m, frames, At(RightShoulder), At(RightHip), At(RightKnee));
    var leftKnee := ExtractAngles(m, frames, At(LeftHip), At(LeftKnee), At(LeftAnkle));
    var rightKnee := ExtractAngles(m, frames, At(RightHip), At(RightKnee), At(RightAnkle));
    var leftAnkle := ExtractAngles(m, frames, At(LeftKnee), At(LeftAnkle), BelowAnkle(LeftAnkle));
    var rightAnkle := ExtractAngles(m, frames, At(RightKnee), At(RightAnkle), BelowAnkle(RightAnkle));
    angles := JointAngles(leftElbow, rightElbow, leftShoulder, rightShoulder, leftHip, rightHip,
                          leftKnee, rightKnee, leftAnkle, rightAnkle);
  }

  /** One extracted series has one value per frame, each in [0, 180]. */
  lemma ExtractedShape(m: MathLib, frames: seq<PoseFrame>, ja: Selector, jb: Selector, jc: Selector, s: seq<real>)
    requires Lawful(m)
    requires s == Extracted(m, frames, ja, jb, jc)
    ensures |s| == |frames| && forall i :: 0 <= i < |s| ==> 0.0 <= s[i] <= 180.0
  {
    ExtractedInRange(m, frames, ja, jb, jc);
  }

  /** Every one of the ten series has one value per frame, each in [0, 180]. */
  lemma AllAnglesShape(m: MathLib, frames: seq<PoseFrame>)
    requires Lawful(m)
    ensures |AngleEntries(AllAngles(m, frames))| == 10
    ensures forall k :: 0 <= k < |AngleEntries(AllAngles(m, frames))| ==>
              var e := AngleEntries(AllAngles(m, frames))[k].1;
              |e| == |frames| && forall i :: 0 <= i < |e| ==> 0.0 <= e[i] <= 180.0
  {
    var a := AllAngles(m, frames);
    ExtractedShape(m, frames, At(LeftShoulder), At(LeftElbow), At(LeftWrist), a.leftElbow);
    ExtractedShape(m, frames, At(RightShoulder), At(RightElbow), At(RightWrist), a.rightElbow);
    ExtractedShape(m, frames, At(LeftElbow), At(LeftShoulder), At(LeftHip), a.leftShoulder);
    ExtractedShape(m, frames, At(RightElbow), At(RightShoulder), At(RightHip), a.rightShoulder);
    ExtractedShape(m, frames, At(LeftShoulder), At(LeftHip), At(LeftKnee), a.leftHip);
    ExtractedShape(m, frames, At(RightShoulder), At(RightHip), At(RightKnee), a.rightHip);
    ExtractedShape(m, frames, At(LeftHip), At(LeftKnee), At(LeftAnkle), a.leftKnee);
    ExtractedShape(m, frames, At(RightHip), At(RightKnee), At(RightAnkle), a.rightKnee);
    ExtractedShape(m, frames, At(LeftKnee), At(LeftAnkle), BelowAnkle(LeftAnkle), a.leftAnkle);
    ExtractedShape(m, frames, At(RightKnee), At(RightAnkle), BelowAnkle(RightAnkle), a.rightAnkle);
  }
}
