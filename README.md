# Pose analysis core, modelled in Dafny

This project models the analysis core of a browser app that reviews an exercise video. A pose detector is sampled frame by frame. Each frame becomes 17 named keypoints with a confidence score. The core then:

- extracts ten smoothed joint-angle series (elbows, shoulders, hips, knees, ankles);
- differentiates them into angular velocities;
- compares left and right sides (asymmetry);
- estimates a movement cadence and its trend from the mean velocity magnitude;
- raises leveled health alerts (knee valgus, left/right asymmetry, lumbar flexion, fatigue).

The modules follow the source files:

| module | file | source |
|---|---|---|
| `Types` | types.dfy | keypoints, frames, the metrics record, alerts |
| `Utils` | utils.dfy | `lib/pose/utils.ts`: distance, law-of-cosines angle, reliability, moving average |
| `Angles` | angles.dfy | `lib/pose/angles.ts`: per-triplet angle series with carry-forward, the ten named series |
| `Velocity` | velocity.dfy | `lib/pose/velocity.ts`: smoothed first difference over time |
| `Asymmetry` | asymmetry.dfy | `lib/pose/asymmetry.ts`: relative difference of the means |
| `Cadence` | cadence.dfy | `lib/pose/cadence.ts`: peak rate and first-third/last-third trend |
| `Alerts` | alerts.dfy | `lib/pose/alerts.ts`: per-frame posture rules and the alert list |
| `Analyzer` | analyzer.dfy | `components/PoseAnalyzer.tsx`: the pipeline run once per video |
| `PoseModel` | pose_model.dfy | `lib/hooks/usePoseModel.ts`: detector names to canonical keypoints, the empty frame |

Modelling choices:

- **Numbers.** JavaScript numbers are Dafny `real`s.
- **`Math.sqrt` and `Math.acos`.** These are a parameter `m: MathLib` of two functions. The ghost predicate `Lawful(m)` states what the proofs may use:
  - the square root is non-negative and squares back to its argument;
  - `acos` maps [-1, 1] into [0, π];
  - `acos(1) = 0`, `acos(0) = π/2` and `acos(-1) = π`.
- **π.** `Math.PI` is the constant 3.141592653589793.
- **Objects.** Objects whose key order matters are sequences of (key, value) pairs in insertion order. These are the velocity dictionary and the asymmetry object that the alert engine searches.
- **Keypoint records.** A frame's keypoints are a total record of 17 fields, read with `Get`.
- **Loops.** Where the source loops and pushes, the model is a `method` with a loop. It is proved equal to a specification function, and the properties are lemmas about that function.

## Model

| member | source | states |
|---|---|---|
| Utils.Distance | lib/pose/utils.ts:6-8 | under the square-root laws the distance is non-negative and its square is the sum of the squared coordinate differences |
| Utils.DistanceProperties | lib/pose/utils.ts:6-8 | distance is non-negative, symmetric, and zero exactly when the two points coincide |
| Utils.Clamp | lib/pose/utils.ts:29 | the clamped cosine lies in [-1, 1] and equals the input when the input is already in range |
| Utils.ComputeJointAngle | lib/pose/utils.ts:13-32 | under the arc-cosine laws every joint angle lies in [0, 180] degrees |
| Utils.JointAngleDegenerate | lib/pose/utils.ts:22 | the angle is 0 whenever A coincides with B or B with C |
| Utils.JointAngleIdenticalPoints | tests/angles.test.ts:24-28 | three identical points give angle 0 |
| Utils.JointAngleRightAngle | tests/angles.test.ts:6-13 | (0,0),(0,1),(1,1) give exactly 90 degrees |
| Utils.JointAngleStraightLine | tests/angles.test.ts:15-22 | (0,0),(1,0),(2,0) give exactly 180 degrees |
| Utils.IsKeypointReliable | lib/pose/utils.ts:37-39 | a keypoint is reliable exactly when its score reaches the threshold; it has no contract of its own, its properties are in the next row |
| Utils.ReliabilityMonotone | lib/pose/utils.ts:37-39 | reliability at a stricter threshold implies it at a looser one; the zero-score placeholder is never reliable at a positive threshold |
| Utils.SumBounds | lib/pose/utils.ts:56 | a sum of values in [lo, hi] lies between n·lo and n·hi |
| Utils.SumConstant | lib/pose/utils.ts:56 | the sum of n copies of c is n·c |
| Utils.MeanBounds | lib/pose/utils.ts:56 | a mean lies between any bounds of its values |
| Utils.Smoothed | lib/pose/utils.ts:44-60 | the smoothed series has the input's length |
| Utils.SmoothArray | lib/pose/utils.ts:44-60 | the loop yields the specification: empty stays empty, shorter than the window is unchanged, else element i is the mean of the window [max(0, i-⌊w/2⌋), min(n, i+⌊w/2⌋+1)) |
| Utils.WindowMeanWithinWindow | lib/pose/utils.ts:53-56 | each window average lies between the bounds of its window |
| Utils.SmoothedWithin | lib/pose/utils.ts:51-58 | smoothing keeps every value within any bounds the input respects |
| Utils.SmoothedConstant | lib/pose/utils.ts:51-58 | a constant series stays the same constant series |
| Angles.RawAngles | lib/pose/angles.ts:19-40 | one raw value per frame |
| Angles.ExtractAngles | lib/pose/angles.ts:13-43 | the loop yields the smoothed carry-forward series, one value per frame |
| Angles.RawAnglesPrefix | lib/pose/angles.ts:21-40 | the raw series of a prefix of the frames is the prefix of the raw series, so earlier values never change |
| Angles.RawAngleAt | lib/pose/angles.ts:26-39 | value i is the joint angle when all three keypoints are reliable; otherwise it is the previous value, or 0 at the first frame |
| Angles.NoReliableFrameAllZero | lib/pose/angles.ts:36-39 | with no reliable frame the raw series is all zeros |
| Angles.RawAnglesInRange | lib/pose/angles.ts:34-39 | every raw value lies in [0, 180] |
| Angles.ExtractedInRange | lib/pose/angles.ts:34-42 | every smoothed value lies in [0, 180] |
| Angles.NoReliableFrameExtractedZero | lib/pose/angles.ts:36-42 | with no reliable frame the extracted series is all zeros |
| Angles.BelowAnkleReliable | lib/pose/angles.ts:98-109 | the synthetic point below an ankle is the ankle shifted by +50 in y with score 1, so it is always reliable |
| Angles.AnkleTripletReliable | lib/pose/angles.ts:98-109 | an ankle triplet is usable exactly when its knee and ankle are reliable |
| Angles.ExtractAllAngles | lib/pose/angles.ts:48-111 | the ten series are extracted over the ten fixed triplets |
| Angles.AllAnglesShape | lib/pose/angles.ts:48-111 | exactly ten entries, each of one value per frame, each value in [0, 180] |
| Velocity.RawVelocity | lib/pose/velocity.ts:14-24 | one raw value per angle |
| Velocity.AngularVelocity | lib/pose/velocity.ts:6-27 | one velocity per angle, in both the guard branch and the main branch |
| Velocity.ComputeAngularVelocity | lib/pose/velocity.ts:6-27 | the loop yields all zeros for fewer than 2 angles or mismatched times; otherwise 0 first, then the change over dt when dt > 0 and 0 otherwise, smoothed over 3 |
| Velocity.RateRecoversChange | lib/pose/velocity.ts:17-23 | where time advances, rate × dt recovers the angle change; otherwise the rate is 0 |
| Velocity.ConstantAnglesZeroVelocity | lib/pose/velocity.ts:16-26 | a constant angle series has zero velocity everywhere |
| Velocity.VelocityBounded | lib/pose/velocity.ts:16-26 | velocities are bounded by the largest step rate in absolute value |
| Asymmetry.ComputeAsymmetry | lib/pose/asymmetry.ts:5-20 | the result is non-negative, and 0 when either side is empty |
| Asymmetry.AsymmetrySymmetric | lib/pose/asymmetry.ts:11-19 | swapping left and right does not change the result |
| Asymmetry.AsymmetryZeroIffEqualMeans | lib/pose/asymmetry.ts:11-19 | for non-empty sides the result is 0 exactly when the means are equal |
| Asymmetry.AsymmetryAtMostHundred | lib/pose/asymmetry.ts:16-19 | with non-negative means the result is at most 100 |
| Asymmetry.AsymmetryAtMostTwoHundred | lib/pose/asymmetry.ts:16-19 | the result never exceeds 200 |
| Asymmetry.IdenticalSeriesNoAsymmetry | tests/asymmetry.test.ts:5-10 | identical series give 0 |
| Asymmetry.AsymmetryNinetyHundred | tests/asymmetry.test.ts:12-18 | [90,90,90] against [100,100,100] gives 10 |
| Cadence.MaxAbs | lib/pose/cadence.ts:17 | the result bounds every magnitude and is attained by one of them |
| Cadence.Magnitudes | lib/pose/cadence.ts:38 | one magnitude per sample |
| Cadence.CountPeaks | lib/pose/cadence.ts:20-28 | the loop counts the strict local maxima of the magnitudes above the threshold, away from both ends |
| Cadence.ComputeCadence | lib/pose/cadence.ts:8-50 | the result is (0, 0) under the guard; otherwise it is peaks per second of the velocity series and the percent change between the mean magnitudes of its first and last thirds |
| Cadence.NoAdjacentPeaks | lib/pose/cadence.ts:21-28 | two neighbouring indices are never both peaks |
| Cadence.PeakCountAtMostHalf | lib/pose/cadence.ts:21-28 | among indices 1..k-1 at most ⌊k/2⌋ are peaks |
| Cadence.PeakCountBound | lib/pose/cadence.ts:21-28 | the peak count is at most n-2 |
| Cadence.MagnitudeSumNonNegative | lib/pose/cadence.ts:35-42 | a sum of magnitudes is non-negative |
| Cadence.TrendAtLeastMinusHundred | lib/pose/cadence.ts:44-47 | the trend never drops below -100 percent |
| Cadence.TrendSign | lib/pose/cadence.ts:44-47 | with a moving first third, the trend is negative exactly when the last third moves less, and 0 exactly when it moves the same |
| Cadence.CadenceOfVelocityBounds | lib/pose/cadence.ts:30-47 | for any velocity series the rate is non-negative and the trend at least -100 |
| Cadence.CadenceBounds | lib/pose/cadence.ts:8-50 | the rate is never negative and the trend never below -100 percent |
| Cadence.StillVelocityNoCadence | lib/pose/cadence.ts:17-47 | an all-zero velocity series has no peak, rate 0 and trend 0 |
| Cadence.ConstantInputNoCadence | lib/pose/cadence.ts:8-50 | a constant input gives (0, 0) |
| Cadence.NoPeakBelowThreshold | lib/pose/cadence.ts:25 | no index is a peak when no magnitude exceeds the threshold |
| Alerts.FlaggedUpTo | lib/pose/alerts.ts:25-57 | the flagged indices number at most k and are all below k |
| Alerts.FlagFrames | lib/pose/alerts.ts:23-62 | the scan with its push-if-not-included yields the flagged indices in order, their ratio and the gate |
| Alerts.DetectKneeValgus | lib/pose/alerts.ts:18-63 | the knee rule over hip-knee-ankle on both sides, limit 165, gate 0.1 |
| Alerts.DetectLumbarFlexion | lib/pose/alerts.ts:68-113 | the lumbar rule over shoulder-hip-knee on both sides, limit 160, gate 0.1 |
| Alerts.FlaggedMembership | lib/pose/alerts.ts:25-57 | an index is reported exactly when its frame has, on some side, three reliable keypoints whose angle is below the limit |
| Alerts.FlaggedIncreasing | lib/pose/alerts.ts:38-54 | the reported indices are strictly increasing, hence free of duplicates |
| Alerts.DetectionRatio | lib/pose/alerts.ts:59-60 | the ratio lies in [0, 1], is 0 for no frames, and the rule fires exactly when the ratio reaches the gate |
| Alerts.AllFramesFlagged | lib/pose/alerts.ts:25-59 | when every frame is flagged, every index is reported |
| Alerts.NoFrameFlagged | lib/pose/alerts.ts:25-59 | when no frame is flagged, nothing is reported |
| Alerts.GenerateHealthAlerts | lib/pose/alerts.ts:118-190 | the step-by-step appends yield the knee, asymmetry, lumbar and fatigue contributions in that order |
| Alerts.RulesOfRecommendations | lib/pose/alerts.ts:141-184 | the four fixed recommendations are distinct, so each alert is attributed to the rule that built it |
| Alerts.PartsOfRules | lib/pose/alerts.ts:136-187 | each rule contributes at most one alert, attributed to it |
| Alerts.AlertsOrdered | lib/pose/alerts.ts:135-189 | at most 4 alerts, each rule at most once, in the order knee, asymmetry, lumbar, fatigue |
| Alerts.AlertsPerRule | lib/pose/alerts.ts:135-187 | each rule's alerts in the list are exactly its own contribution: the knee alert iff flagged, level risque above a ratio of 0.25 else attention, with the frames; the asymmetry alert iff the maximum exceeds 15, attention above 25 else info; the lumbar alert iff flagged, attention above 0.25 else info; the fatigue alert iff the trend is below -20, attention below -30 else info |
| Alerts.MaxAsymmetry | lib/pose/alerts.ts:148-154 | the maximum is at least each of the five lookups and equal to one of them |
| Alerts.KneeAlertLevel | lib/pose/alerts.ts:136-145 | the knee alert exists exactly when valgus is flagged, is risque iff the ratio exceeds 0.25 and carries the flagged frames |
| Alerts.LookupFromEntry | lib/pose/alerts.ts:148-154 | a non-zero lookup (a missing key reads as 0) comes from an entry carrying that value |
| Alerts.FindKeyFirst | lib/pose/alerts.ts:156-158 | the segment search succeeds exactly when some entry carries the value, and returns the first such key |
| Alerts.AsymmetryAlertNamesSegment | lib/pose/alerts.ts:147-165 | when the asymmetry alert fires it always names a segment, and that segment carries the maximum |
| Alerts.StraightKneeAngle | tests/alerts.test.ts:24-35 | hip (0.5,0.3), knee (0.5,0.5), ankle (0.5,0.7) form exactly 180 degrees |
| Alerts.StraightLegNoValgus | tests/alerts.test.ts:24-40 | the intended straight-leg scenario, with the 14 keypoints the test leaves undefined at the zero-score placeholder: no frame is flagged, the ratio is 0 and there is no knee alert |
| Alerts.EveryFrameValgus | lib/pose/alerts.ts:59-60 | when every frame shows valgus the ratio is 1, every frame is reported and the knee alert is risque |
| Analyzer.ComputeVelocities | components/PoseAnalyzer.tsx:44-48 | the `forEach` fill yields one velocity entry per angle entry |
| Analyzer.SegmentAsymmetries | components/PoseAnalyzer.tsx:51-57 | the five left/right asymmetries, each non-negative |
| Analyzer.MirroredAsymmetries | components/PoseAnalyzer.tsx:51-57 | exchanging every left series with its right one leaves all five asymmetries unchanged |
| Analyzer.MagnitudeSumAt | components/PoseAnalyzer.tsx:61-64 | the sum of magnitudes at an index is non-negative |
| Analyzer.AverageVelocities | components/PoseAnalyzer.tsx:60-66 | one mean magnitude per timestamp |
| Analyzer.Analyze | components/PoseAnalyzer.tsx:40-77 | the pipeline's metrics and alerts: angles; velocities per angle; asymmetry per left/right pair; cadence of the mean magnitudes; alerts from the frames, the asymmetry object and the cadence trend |
| Analyzer.VelocityEntriesShape | components/PoseAnalyzer.tsx:45-48 | the velocity object has the angle object's keys in order, each series as long as its angle series |
| Analyzer.VelocityKeysMatchAngles | components/PoseAnalyzer.tsx:41-48 | the velocity object has exactly the ten angle keys, each series one value per frame |
| Analyzer.AverageVelocitiesNonNegative | components/PoseAnalyzer.tsx:60-66 | every mean magnitude is non-negative |
| Analyzer.MetricsBounds | components/PoseAnalyzer.tsx:51-67 | the five asymmetries are non-negative, the cadence is non-negative and its trend at least -100 |
| Analyzer.AnalysisAlertsOrdered | components/PoseAnalyzer.tsx:70 | an analysis raises at most 4 alerts in the fixed rule order |
| Analyzer.AsymmetryLookups | components/PoseAnalyzer.tsx:51-57 | the alert engine's maximum over the asymmetry object is the maximum of its five fields |
| Analyzer.ShortClipNoFatigue | lib/pose/cadence.ts:12-14 | a clip of fewer than 3 frames has cadence (0, 0) and raises no fatigue alert |
| Types.Keys | components/PoseAnalyzer.tsx:65 | the keys of an object are its entries' keys, in order |
| PoseModel.FromMap | lib/hooks/usePoseModel.ts:66-70 | the record reads back every name of a complete dictionary |
| PoseModel.FillMissing | lib/hooks/usePoseModel.ts:66-70 | every canonical name gets its found keypoint or the zero-score placeholder |
| PoseModel.MapMoveNetToKeypoints | lib/hooks/usePoseModel.ts:32-73 | every canonical name holds what the in-order processing of the detections recorded for it, or the placeholder |
| PoseModel.EmptyKeypoints | lib/hooks/usePoseModel.ts:165-168 | the empty frame has every name at the zero-score placeholder |
| PoseModel.AllNamesListed | lib/hooks/usePoseModel.ts:9-27 | the fixed list holds every canonical name |
| PoseModel.FirstContained | lib/hooks/usePoseModel.ts:39-56 | a found name is one of the listed names and is contained in the detector name |
| PoseModel.MapName | lib/hooks/usePoseModel.ts:39-56 | a detector name maps only to a canonical name it contains |
| PoseModel.FirstContainedFirst | lib/hooks/usePoseModel.ts:39-56 | the ordered search returns the first listed name contained in the detector name; it returns nothing exactly when none is contained |
| PoseModel.MapNameFirstMatch | lib/hooks/usePoseModel.ts:39-56 | a detector name maps to the first canonical name it contains in the fixed order, and to nothing when it contains none |
| PoseModel.FoundMembership | lib/hooks/usePoseModel.ts:38-64 | a name is recorded exactly when some detection maps to it |
| PoseModel.FoundLastWins | lib/hooks/usePoseModel.ts:57-63 | a recorded name holds the last detection that maps to it |
| PoseModel.UnmatchedNameIsPlaceholder | lib/hooks/usePoseModel.ts:69 | a name no detection maps to gets the zero-score placeholder |
| PoseModel.ScoreDefaultsToZero | lib/hooks/usePoseModel.ts:61 | a missing score becomes 0, so that keypoint is unreliable; a reported score is kept |
| PoseModel.EmptyFrameUnreliable | lib/hooks/usePoseModel.ts:165-168 | the empty frame equals mapping no detection, and none of its keypoints is reliable at a positive threshold |

## Left out

- Floating point: IEEE rounding, NaN and infinities are not modelled; numbers are exact reals. So `value || 0` only replaces a missing value (a NaN would also be replaced in the source), and a division by zero yielding NaN does not arise.
- `Math.sqrt`, `Math.acos` and π are abstract: only the laws in `Lawful` are available. The 90 and 180 degree angle tests are stated.
- The three tests in tests/alerts.test.ts (lines 7-17, 25-35 and 47-57) build frames with only three keypoints, cast `as any`. As written they never reach a result. `frame.keypoints.right_hip` (lib/pose/alerts.ts:43) and `right_shoulder` (lib/pose/alerts.ts:93) are `undefined`, and `isKeypointReliable` (lib/pose/utils.ts:38) reads `.score` of `undefined`. So each test throws a TypeError at lib/pose/alerts.ts:48 or :98. The model's frames are total and cannot express a missing keypoint, so this throw is not modelled.
- Alerts.StraightLegNoValgus states the intended straight-leg scenario instead, with the 14 missing keypoints at the zero-score placeholder. The valgus test's intended outcome, an ankle at (0.6, 0.7) flagged at about 153 degrees, would also need a numeric arc cosine, so it is not stated.
- PoseModel.MapNameFirstMatch: stated for any detector name; that each canonical spelling maps to itself is not proved, since it needs string-literal containment facts the solver does not decide.
- Analyzer.AverageVelocities: requires at least one velocity entry; the source divides by the key count, which is always 10 there (a zero count would give NaN).
- Utils.SmoothArray: the window size is a `nat`; the source's default argument of 3 is passed explicitly at every call.
- The lumbar-flexion test in tests/alerts.test.ts throws as written (see above); its intended check, that the result has a ratio and a flag, is the shape of the `Detection` datatype.
- Video decoding, the seek-and-sample loop, the detector itself, model loading and progress reporting in lib/hooks/usePoseModel.ts are I/O and an opaque neural network; the detector's output enters as a sequence of `DetectedKeypoint`.
- React state, rendering, error handling and the `onAnalysisComplete` callback in components/PoseAnalyzer.tsx are UI; `Analyze` returns the metrics and alerts instead.
- Display formatting (`toFixed`), the demo data generators, the PDF report, storage and API routes are not part of this model.
