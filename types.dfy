/** The data model of the pose pipeline: keypoints, frames, the metrics record and alerts. */
module Types {

  datatype Option<+T> = None | Some(value: T)

  /** A detected 2D joint position with its confidence score. */
  datatype Keypoint = Keypoint(x: real, y: real, score: real)

  /** The 17 canonical joint names, in the order of the detector's keypoint list. */
  datatype JointName =
    | Nose | LeftEye | RightEye | LeftEar | RightEar
    | LeftShoulder | RightShoulder | LeftElbow | RightElbow
    | LeftWrist | RightWrist | LeftHip | RightHip
    | LeftKnee | RightKnee | LeftAnkle | RightAnkle

  /** The canonical names in their fixed order. */
  const KeypointNames: seq<JointName> :=
    [ Nose, LeftEye, RightEye, LeftEar, RightEar,
      LeftShoulder, RightShoulder, LeftElbow, RightElbow,
      LeftWrist, RightWrist, LeftHip, RightHip,
      LeftKnee, RightKnee, LeftAnkle, RightAnkle ]

  /** The string spelling of a joint name. */
  function CanonicalName(j: JointName): string
  {
    match j
    case Nose => "nose"
    case LeftEye => "left_eye"
    case RightEye => "right_eye"
    case LeftEar => "left_ear"
    case RightEar => "right_ear"
    case LeftShoulder => "left_shoulder"
    case RightShoulder => "right_shoulder"
    case LeftElbow => "left_elbow"
    case RightElbow => "right_elbow"
    case LeftWrist => "left_wrist"
    case RightWrist => "right_wrist"
    case LeftHip => "left_hip"
    case RightHip => "right_hip"
    case LeftKnee => "left_knee"
    case RightKnee => "right_knee"
    case LeftAnkle => "left_ankle"
    case RightAnkle => "right_ankle"
  }

  /** A frame's keypoints: one keypoint for every canonical name, read without existence checks. */
  datatype Keypoints = Keypoints(
    nose: Keypoint,
    leftEye: Keypoint, rightEye: Keypoint,
    leftEar: Keypoint, rightEar: Keypoint,
    leftShoulder: Keypoint, rightShoulder: Keypoint,
    leftElbow: Keypoint, rightElbow: Keypoint,
    leftWrist: Keypoint, rightWrist: Keypoint,
    leftHip: Keypoint, rightHip: Keypoint,
    leftKnee: Keypoint, rightKnee: Keypoint,
    leftAnkle: Keypoint, rightAnkle: Keypoint)

  /** Look a keypoint up by its joint name. */
  function Get(k: Keypoints, j: JointName): Keypoint
  {
    match j
    case Nose => k.nose
    case LeftEye => k.leftEye
    case RightEye => k.rightEye
    case LeftEar => k.leftEar
    case RightEar => k.rightEar
    case LeftShoulder => k.leftShoulder
    case RightShoulder => k.rightShoulder
    case LeftElbow => k.leftElbow
    case RightElbow => k.rightElbow
    case LeftWrist => k.leftWrist
    case RightWrist => k.rightWrist
    case LeftHip => k.leftHip
    case RightHip => k.rightHip
    case LeftKnee => k.leftKnee
    case RightKnee => k.rightKnee
    case LeftAnkle => k.leftAnkle
    case RightAnkle => k.rightAnkle
  }

  /** Two keypoint records agreeing on every joint name are equal. */
  lemma KeypointsExtensional(a: Keypoints, b: Keypoints)
    requires forall j :: Get(a, j) == Get(b, j)
    ensures a == b
  {
    assert Get(a, Nose) == Get(b, Nose) && Get(a, LeftEye) == Get(b, LeftEye) && Get(a, RightEye) == Get(b, RightEye);
    assert Get(a, LeftEar) == Get(b, LeftEar) && Get(a, RightEar) == Get(b, RightEar);
    assert Get(a, LeftShoulder) == Get(b, LeftShoulder) && Get(a, RightShoulder) == Get(b, RightShoulder);
    assert Get(a, LeftElbow) == Get(b, LeftElbow) && Get(a, RightElbow) == Get(b, RightElbow);
    assert Get(a, LeftWrist) == Get(b, LeftWrist) && Get(a, RightWrist) == Get(b, RightWrist);
    assert Get(a, LeftHip) == Get(b, LeftHip) && Get(a, RightHip) == Get(b, RightHip);
    assert Get(a, LeftKnee) == Get(b, LeftKnee) && Get(a, RightKnee) == Get(b, RightKnee);
    assert Get(a, LeftAnkle) == Get(b, LeftAnkle) && Get(a, RightAnkle) == Get(b, RightAnkle);
  }

  /** A pose frame: all keypoints at timestamp `t` (seconds). */
  datatype PoseFrame = PoseFrame(keypoints: Keypoints, t: real)

  /** The zero-confidence keypoint used where nothing was detected. */
  const Placeholder: Keypoint := Keypoint(0.0, 0.0, 0.0)

  /** Every keypoint set to the placeholder. */
  const AllPlaceholders: Keypoints := Keypoints(
    Placeholder, Placeholder, Placeholder, Placeholder, Placeholder,
    Placeholder, Placeholder, Placeholder, Placeholder,
    Placeholder, Placeholder, Placeholder, Placeholder,
    Placeholder, Placeholder, Placeholder, Placeholder)

  /** The ten smoothed angle series of the metrics record. */
  datatype JointAngles = JointAngles(
    leftElbow: seq<real>, rightElbow: seq<real>,
    leftShoulder: seq<real>, rightShoulder: seq<real>,
    leftHip: seq<real>, rightHip: seq<real>,
    leftKnee: seq<real>, rightKnee: seq<real>,
    leftAnkle: seq<real>, rightAnkle: seq<real>)

  /** The angle series as the entries of an object, in declaration (insertion) order. */
  function AngleEntries(a: JointAngles): seq<(string, seq<real>)>
  {
    [ ("left_elbow", a.leftElbow), ("right_elbow", a.rightElbow),
      ("left_shoulder", a.leftShoulder), ("right_shoulder", a.rightShoulder),
      ("left_hip", a.leftHip), ("right_hip", a.rightHip),
      ("left_knee", a.leftKnee), ("right_knee", a.rightKnee),
      ("left_ankle", a.leftAnkle), ("right_ankle", a.rightAnkle) ]
  }

  /** The keys of an insertion-ordered object, in order. */
  function Keys<V>(d: seq<(string, V)>): (ks: seq<string>)
    ensures |ks| == |d|
    ensures forall i :: 0 <= i < |d| ==> ks[i] == d[i].0
  {
    if |d| == 0 then [] else Keys(d[..|d| - 1]) + [d[|d| - 1].0]
  }

  /** The five per-segment asymmetry percentages. */
  datatype SegmentAsymmetry = SegmentAsymmetry(elbow: real, shoulder: real, hip: real, knee: real, ankle: real)

  /** The asymmetry record as the entries of an object, in insertion order. */
  function AsymmetryEntries(s: SegmentAsymmetry): seq<(string, real)>
  {
    [("elbow", s.elbow), ("shoulder", s.shoulder), ("hip", s.hip), ("knee", s.knee), ("ankle", s.ankle)]
  }

  /** Movement rate (peaks per second) and the first-third to last-third trend (percent). */
  datatype CadenceMetric = CadenceMetric(value: real, trend: real)

  datatype Metrics = Metrics(
    angles: JointAngles,
    angularVelocities: seq<(string, seq<real>)>,
    asymmetry: SegmentAsymmetry,
    cadence: CadenceMetric)

  /** Alert severity, ordered info < attention < risque. */
  datatype Level = Info | Attention | Risque

  datatype HealthAlert = HealthAlert(level: Level, text: string, recommendation: string, frames: Option<seq<nat>>)
}
