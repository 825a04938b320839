# Face validation rules, modelled in Dafny

The repository has three webcam scripts. Each asks a face detector for faces
and labels every detection it gets. Around the capture, inference and drawing,
the scripts make a few small decisions, and this project models those:

- `Check_with_angle.py` (insightface detector). A confidence gate at 0.60 comes
  first and gives `LowConf`. Past it, an eye-line roll check
  (`check_face_pose`, 30 degrees) gives `Valid` or `Tilted`.
- `Check_with_insightface.py` (insightface detector). The box is truncated to
  integers. A face is `Valid` when its score is at least 0.5 and its integer
  width and height are both at least 60 pixels; otherwise it is `Invalid`.
- `Check_with_yunet.py` (YuNet detector). Each flat detection row is split into
  a box `(x, y, w, h)`, landmark pairs taken from `face[4:-1]` and a trailing
  score. The script's own copy of the roll check (`check_face_roll`) then runs
  on the landmarks.

Modules:

- `Detection` (Detection.dfy) holds what the scripts share: points, the
  insightface face record, numpy's `astype(int)` as truncation toward zero,
  and the eye-line angle. It also holds a reference definition,
  `HorizontalDeviation`: how far an undirected line is from horizontal.
- `AngleCheck`, `InsightFaceCheck` and `YuNetCheck` each model one script.

`math.degrees(math.atan2(dy, dx))` is not computed. It is a function-valued
parameter `deg`. The predicate `IsAtan2Degrees` lists the facts some lemmas
assume about it:

- its range is [-180, 180];
- its values on the axes are 0, 180, 90 and -90;
- reversing a non-zero vector turns its absolute angle `a` into `180 - a`.

Only lemmas require this predicate. The checks themselves
work for any `deg`, as the Python does.

In `YuNetCheck`, Python exceptions are modelled as `Err` results:

- a row shorter than four entries fails the unpacking of `face[:4]`;
- an odd-length `face[4:-1]` fails `reshape(-1, 2)`;
- fewer than two landmark pairs fail `landmarks[0]` or `landmarks[1]`.

`CheckFaceRoll` itself requires two landmarks. `ProcessRow` returns
`MissingEye` before calling it, so no row that the script would reject is
hidden by that requirement.

An uncaught exception ends `main` itself: the rest of the frame and all later
frames are never processed, and `cap.release()` is never reached. The model
shows this for one frame, where `ProcessRows` stops at the first row that
raises and returns its error.

In `AngleCheck`, the one exception the labelling can raise is an `IndexError`
from `kps[0]` or `kps[1]`. This happens only for a face past the confidence
gate with fewer than two keypoints. It is a precondition (`Labelable`), not an
error result (see "## Left out").

Some things the scripts do not do:

- No script has a `TooSmall` label. No script has a configurable rule order.
- No script rejects an inverted or malformed box. In
  `Check_with_insightface.py` an inverted box gets a width or height of zero
  or less after truncation, and is `Invalid`.
- The YuNet script does not convert its box to corners. It keeps
  `(x, y, w, h)` and draws the rectangle from `(x, y)` to `(x + w, y + h)`.
  The model has the same split: `DecodeRow` and `Rectangle`.
- The YuNet script never reads the score (`face[-1]`). The model still
  records it, to show that the landmark slice leaves it out.

## Model

| member | source | states |
|---|---|---|
| `Detection.Abs` | Check_with_angle.py:30 | the result is non-negative and equals the input or its negation |
| `Detection.TruncToInt` | Check_with_insightface.py:39 | `astype(int)` truncates toward zero: for r >= 0 the result is the largest int not above r; for r < 0, the smallest int not below r |
| `Detection.EyeRollDegrees` | Check_with_angle.py:22-30 | the absolute eye-line angle is never negative; with a genuine atan2 it is at most 180 |
| `Detection.HorizontalDeviation` | Check_with_angle.py:32-34 | reference: the distance of an undirected line from horizontal is the smaller of `roll` and `180 - roll`, and lies in [0, 90] |
| `Detection.HorizontalDeviationSymmetric` | Check_with_angle.py:32-34 | angles `r` and `180 - r` are equally far from horizontal |
| `Detection.TruncatedExtentBounds` | Check_with_insightface.py:39-44 | an extent computed on truncated corners is within 2 of the reported float extent |
| `Detection.ToIntBox` | Check_with_insightface.py:39 | `face.bbox.astype(int)`: each integer corner is the truncation toward zero of the matching float corner |
| `Detection.TruncToIntMonotone` | Check_with_insightface.py:39 | truncation keeps order |
| `AngleCheck.CheckFacePose` | Check_with_angle.py:8-40 | accepts exactly when roll <= tolerance or 180 - roll <= tolerance, so it rejects exactly when both exceed it |
| `AngleCheck.PoseIsDeviationBound` | Check_with_angle.py:29-35 | with a genuine atan2: accepted iff the eye line's distance from horizontal is at most the tolerance (both directions) |
| `AngleCheck.PoseDependsOnlyOnEyes` | Check_with_angle.py:19-26 | two faces with the same `kps[0]` and `kps[1]` get the same verdict, whatever their nose, mouth, box or score |
| `AngleCheck.PoseTranslationInvariant` | Check_with_angle.py:25-26 | moving both eyes by one offset leaves the verdict unchanged |
| `AngleCheck.PoseEyeSwapInvariant` | Check_with_angle.py:32-34 | with a genuine atan2, swapping the eyes keeps the verdict for every face |
| `AngleCheck.PoseLevelAccepted` | Check_with_angle.py:32-40 | a level eye line (0 or 180 degrees) is accepted for every tolerance >= 0 |
| `AngleCheck.PoseVertical` | Check_with_angle.py:32-35 | a vertical eye line is accepted iff the tolerance is at least 90 |
| `AngleCheck.PoseWideToleranceAcceptsAll` | Check_with_angle.py:34-40 | a tolerance of 90 or more accepts every face |
| `AngleCheck.Labelable` | Check_with_angle.py:65-70 | a face can be labelled without raising iff, whenever it passes the confidence gate, it has at least two keypoints |
| `AngleCheck.Classify` | Check_with_angle.py:60-75 | `LowConf` iff score < 0.60; `Valid` iff score >= 0.60 and roll <= 30 or roll >= 150; `Tilted` iff score >= 0.60 and 30 < roll < 150; so exactly one label |
| `AngleCheck.LowConfIgnoresKeypoints` | Check_with_angle.py:64-67 | below the gate the label is `LowConf` for any keypoints and any angle function |
| `AngleCheck.ClassifyValidIsDeviationBound` | Check_with_angle.py:68-75 | past the gate, with a genuine atan2: `Valid` iff the eye line is within 30 degrees of horizontal |
| `AngleCheck.RollExamples` | Check_with_angle.py:65-75 | eyes (0,0)-(10,0) and (10,0)-(0,0) are `Valid`; eyes (0,0)-(0,10) are `Tilted` |
| `AngleCheck.ClassifyAll` | Check_with_angle.py:60-75 | one label per face, in detection order, each the label of that face |
| `AngleCheck.TwoFaceFrame` | Check_with_angle.py:60-75 | a low-score face and a level high-score face give `[LowConf, Valid]` |
| `InsightFaceCheck.Width` | Check_with_insightface.py:43 | `x1 + w == x2`, so the width is negative exactly for an inverted box |
| `InsightFaceCheck.Height` | Check_with_insightface.py:44 | `y1 + h == y2`, so the height is negative exactly for an inverted box |
| `InsightFaceCheck.Classify` | Check_with_insightface.py:39-54 | `Valid` iff score >= 0.5 and both truncated extents `x2 - x1` and `y2 - y1` are >= 60; else `Invalid` |
| `InsightFaceCheck.ClassifyIgnoresKeypoints` | Check_with_insightface.py:37-54 | the keypoints never affect the label |
| `InsightFaceCheck.BoundariesInclusive` | Check_with_insightface.py:49 | score exactly 0.5 with width and height exactly 60 is `Valid` |
| `InsightFaceCheck.LowScoreInvalid` | Check_with_insightface.py:49-54 | a score below 0.5 is `Invalid` whatever the box |
| `InsightFaceCheck.SmallBoxInvalid` | Check_with_insightface.py:43-54 | an integer width or height below 60 is `Invalid` whatever the score |
| `InsightFaceCheck.InvertedBoxInvalid` | Check_with_insightface.py:39-49 | a reported box with x2 < x1 or y2 < y1 has an integer extent <= 0 and is `Invalid` |
| `InsightFaceCheck.ClassifyMonotone` | Check_with_insightface.py:49 | a higher score or larger extents never turn `Valid` into `Invalid` |
| `InsightFaceCheck.LargeReportedBoxValid` | Check_with_insightface.py:39-49 | float extents of at least 61 with a passing score are always `Valid` after truncation |
| `InsightFaceCheck.SmallReportedBoxInvalid` | Check_with_insightface.py:39-49 | a float extent of at most 58 is always `Invalid` after truncation |
| `YuNetCheck.CheckFaceRoll` | Check_with_yunet.py:4-21 | accepts exactly when angle <= tolerance or 180 - angle <= tolerance |
| `YuNetCheck.RollAgreesWithPose` | Check_with_yunet.py:10-21 | `check_face_roll(kps, t)` equals `check_face_pose` of a face with those keypoints and the same `t` |
| `YuNetCheck.RollIsDeviationBound` | Check_with_yunet.py:16-21 | with a genuine atan2: accepted iff the eye line's distance from horizontal is at most the tolerance |
| `YuNetCheck.RollDependsOnlyOnEyes` | Check_with_yunet.py:10-11 | only `landmarks[0]` and `landmarks[1]` affect the verdict |
| `YuNetCheck.Pairs` | Check_with_yunet.py:65 | `reshape(-1, 2)` gives half as many points; point i is `(s[2i], s[2i+1])` |
| `YuNetCheck.Flatten` | Check_with_yunet.py:64-65 | the inverse layout: twice as many entries, entries 2i and 2i+1 are point i |
| `YuNetCheck.FlattenPairs` | Check_with_yunet.py:64-65 | flattening the reshaped pairs gives back the slice |
| `YuNetCheck.PairsFlatten` | Check_with_yunet.py:65 | reshaping flattened points gives back the points |
| `YuNetCheck.LandmarkSlice` | Check_with_yunet.py:64 | `face[4:-1]` has `len - 5` entries (none for a four-entry row), and entry i is `row[4 + i]` |
| `YuNetCheck.DecodeRow` | Check_with_yunet.py:61-65 | succeeds iff the row has >= 4 entries and an even landmark slice, naming the exception otherwise; the box is the truncated first four entries; pair i is `(row[4+2i], row[5+2i])`; the score is the last entry |
| `YuNetCheck.DecodeRowRoundTrip` | Check_with_yunet.py:63-65 | decoded landmarks flatten back to `face[4:-1]`, and the score's index lies past every landmark coordinate |
| `YuNetCheck.FifteenEntryRowHasFivePairs` | Check_with_yunet.py:64-65 | a 15-entry row decodes to exactly 5 pairs |
| `YuNetCheck.Rectangle` | Check_with_yunet.py:68 | the rectangle runs from `(x, y)` to the corner `w` right and `h` down |
| `YuNetCheck.ExampleRow` | Check_with_yunet.py:61-68 | row `[10,10,50,50, 15,20,35,20,25,30,18,40,32,40, 0.92]` gives rectangle (10,10)-(60,60), score 0.92 and the five listed points |
| `YuNetCheck.ProcessRow` | Check_with_yunet.py:60-74 | one loop iteration: fails iff decoding fails or fewer than two pairs exist; otherwise reports the decoded row and a verdict that accepts iff angle <= 30 or angle >= 150 |
| `YuNetCheck.FifteenEntryRowIsChecked` | Check_with_yunet.py:72-73 | every 15-entry row gets a roll verdict |
| `YuNetCheck.FrameFaces` | Check_with_yunet.py:54-57 | `None` from the detector gives no rows; otherwise the rows as returned |
| `YuNetCheck.ProcessRows` | Check_with_yunet.py:60-74 | succeeds iff every row does, with one report per row in order; otherwise fails with the error of the first failing row |
| `YuNetCheck.ProcessFrame` | Check_with_yunet.py:52-74 | a `None` detection result gives no reports and runs no roll check |
| `YuNetCheck.FullRowsFrame` | Check_with_yunet.py:54-74 | a frame of 15-entry rows is processed without error, one report per row |

## Left out

- Webcam capture, `cv2.resize`, `imshow`, the `q` key and cleanup are I/O and
  user-interface plumbing.
- Model loading and inference (`FaceAnalysis.prepare/get`,
  `cv2.FaceDetectorYN.create/detect`) are calls into foreign code. Their
  output is an input here: a `Face` value, or an optional sequence of rows.
  YuNet's `score_threshold=0.9` filter runs inside the detector.
- `atan2` and `math.degrees` are not computed in floating point. They are the
  parameter `deg`, and only the facts in `IsAtan2Degrees` are assumed.
  Properties that need real trigonometry, such as invariance under scaling,
  are not stated.
- Floating-point effects are not modelled. Scores, landmarks and boxes are
  exact reals; the model does not compare a float32 score with the double
  0.60 bit by bit, and has no NaN or infinity. `TruncToInt` assumes a finite
  input.
- Drawing is left out: rectangles, keypoint circles, text labels, colours,
  the `:.2f` formatting, and the `print` of the roll verdict. The verdict
  itself is modelled, as `Report.rollOk`.
- AngleCheck.CheckFacePose, AngleCheck.Classify and AngleCheck.ClassifyAll
  require two keypoints (via `Labelable` for the last two). They do not model
  the `IndexError` that Check_with_angle.py:22-23 would raise for a face past
  the gate with fewer keypoints. insightface's detector always gives five
  keypoints, so `kps[1]` cannot fail in practice.
- Each insightface face is assumed to have a four-number box. The detector
  always provides one, so the unpacking at Check_with_angle.py:61 and
  Check_with_insightface.py:39 cannot fail in the model.
