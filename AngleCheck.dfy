/**
 * Check_with_angle.py: the eye-line roll check `check_face_pose` and the
 * per-face label chosen in `main` (confidence gate first, then the roll check).
 */
module AngleCheck {
  import opened Detection

  /** The confidence gate in `main`. */
  const MinConfidence: real := 0.60
  /** The tolerance `main` passes to `check_face_pose` (also its default). */
  const MaxTiltDeg: real := 30.0

  /** The label `main` writes over each face box. */
  datatype Label = LowConf | Valid | Tilted

  /** `check_face_pose(face, max_tilt_deg)`: true when the eye line is within
      `maxTiltDeg` of horizontal, read in either direction. Indexing `kps[1]`
      needs at least two keypoints. */
  function CheckFacePose(face: Face, maxTiltDeg: real, deg: AngleFn): (ok: bool)
    requires |face.kps| >= 2
    ensures var roll := EyeRollDegrees(face.kps[0], face.kps[1], deg);
            ok <==> roll <= maxTiltDeg || 180.0 - roll <= maxTiltDeg
  {
    var kps := face.kps;
    var leftEye := kps[0];
    var rightEye := kps[1];
    var dx := rightEye.x - leftEye.x;
    var dy := rightEye.y - leftEye.y;
    var rollDeg := Abs(deg(dy, dx));
    if rollDeg > maxTiltDeg && 180.0 - rollDeg > maxTiltDeg then false else true
  }

  /** With a genuine atan2, the check accepts exactly the eye lines whose
      distance from horizontal is at most the tolerance. */
  lemma PoseIsDeviationBound(face: Face, maxTiltDeg: real, deg: AngleFn)
    requires IsAtan2Degrees(deg)
    requires |face.kps| >= 2
    ensures CheckFacePose(face, maxTiltDeg, deg)
            <==> HorizontalDeviation(EyeRollDegrees(face.kps[0], face.kps[1], deg)) <= maxTiltDeg
  {
  }

  /** Only the two eye keypoints matter: nose, mouth, box and score never change the verdict. */
  lemma PoseDependsOnlyOnEyes(f: Face, g: Face, maxTiltDeg: real, deg: AngleFn)
    requires |f.kps| >= 2 && |g.kps| >= 2
    requires f.kps[0] == g.kps[0] && f.kps[1] == g.kps[1]
    ensures CheckFacePose(f, maxTiltDeg, deg) == CheckFacePose(g, maxTiltDeg, deg)
  {
  }

  /** Moving both eyes by the same offset keeps the verdict: only dx and dy are used. */
  lemma PoseTranslationInvariant(face: Face, ox: real, oy: real, maxTiltDeg: real, deg: AngleFn)
    requires |face.kps| >= 2
    ensures var l, r := face.kps[0], face.kps[1];
            var moved := face.(kps := face.kps[0 := Point(l.x + ox, l.y + oy)][1 := Point(r.x + ox, r.y + oy)]);
            CheckFacePose(moved, maxTiltDeg, deg) == CheckFacePose(face, maxTiltDeg, deg)
  {
    var l, r := face.kps[0], face.kps[1];
    var moved := face.(kps := face.kps[0 := Point(l.x + ox, l.y + oy)][1 := Point(r.x + ox, r.y + oy)]);
    assert (r.x + ox) - (l.x + ox) == r.x - l.x;
    assert (r.y + oy) - (l.y + oy) == r.y - l.y;
    assert EyeRollDegrees(moved.kps[0], moved.kps[1], deg) == EyeRollDegrees(l, r, deg);
  }

  /** Swapping the eyes reverses the eye line, turning its angle `r` into
      `180 - r`; the verdict stays. Coincident eyes keep it trivially. */
  lemma PoseEyeSwapInvariant(face: Face, maxTiltDeg: real, deg: AngleFn)
    requires IsAtan2Degrees(deg)
    requires |face.kps| >= 2
    ensures var swapped := face.(kps := face.kps[0 := face.kps[1]][1 := face.kps[0]]);
            CheckFacePose(swapped, maxTiltDeg, deg) == CheckFacePose(face, maxTiltDeg, deg)
  {
    var l, r := face.kps[0], face.kps[1];
    var dy, dx := r.y - l.y, r.x - l.x;
    if dy != 0.0 || dx != 0.0 {
      assert l.y - r.y == -dy && l.x - r.x == -dx;
      assert ReversalSupplements(deg, dy, dx);
    }
  }

  /** A level eye line is accepted whichever eye is on the left (0 and 180 degrees). */
  lemma PoseLevelAccepted(face: Face, maxTiltDeg: real, deg: AngleFn)
    requires IsAtan2Degrees(deg)
    requires |face.kps| >= 2
    requires face.kps[0].y == face.kps[1].y && face.kps[0].x != face.kps[1].x
    requires maxTiltDeg >= 0.0
    ensures CheckFacePose(face, maxTiltDeg, deg)
  {
    var l, r := face.kps[0], face.kps[1];
    assert r.y - l.y == 0.0;
    if r.x - l.x > 0.0 {
      assert deg(0.0, r.x - l.x) == 0.0;
    } else {
      assert deg(0.0, r.x - l.x) == 180.0;
    }
  }

  /** A vertical eye line (90 degrees) is rejected exactly when the tolerance is below 90. */
  lemma PoseVertical(face: Face, maxTiltDeg: real, deg: AngleFn)
    requires IsAtan2Degrees(deg)
    requires |face.kps| >= 2
    requires face.kps[0].x == face.kps[1].x && face.kps[0].y != face.kps[1].y
    ensures CheckFacePose(face, maxTiltDeg, deg) <==> maxTiltDeg >= 90.0
  {
    var l, r := face.kps[0], face.kps[1];
    assert r.x - l.x == 0.0;
    if r.y - l.y > 0.0 {
      assert deg(r.y - l.y, 0.0) == 90.0;
    } else {
      assert deg(r.y - l.y, 0.0) == -90.0;
    }
  }

  /** No eye line is more than 90 degrees from horizontal, so a tolerance of
      90 or more accepts every face. */
  lemma PoseWideToleranceAcceptsAll(face: Face, maxTiltDeg: real, deg: AngleFn)
    requires IsAtan2Degrees(deg)
    requires |face.kps| >= 2
    requires maxTiltDeg >= 90.0
    ensures CheckFacePose(face, maxTiltDeg, deg)
  {
    PoseIsDeviationBound(face, maxTiltDeg, deg);
  }

  /** Whether `main` can label the face without raising: keypoints are read
      only past the confidence gate. */
  function Labelable(face: Face): (ok: bool)
    ensures ok <==> (face.detScore >= MinConfidence ==> |face.kps| >= 2)
  {
    face.detScore < MinConfidence || |face.kps| >= 2
  }

  /** The label `main` gives one face: `LowConf` below the confidence gate,
      otherwise `Valid` or `Tilted` by the roll check with 30 degrees. */
  function Classify(face: Face, deg: AngleFn): (verdict: Label)
    requires Labelable(face)
    ensures verdict == LowConf <==> face.detScore < MinConfidence
    ensures verdict == Valid <==>
              && face.detScore >= MinConfidence
              && var roll := EyeRollDegrees(face.kps[0], face.kps[1], deg);
                 (roll <= MaxTiltDeg || roll >= 180.0 - MaxTiltDeg)
    ensures verdict == Tilted <==>
              && face.detScore >= MinConfidence
              && var roll := EyeRollDegrees(face.kps[0], face.kps[1], deg);
                 MaxTiltDeg < roll < 180.0 - MaxTiltDeg
  {
    if face.detScore < MinConfidence then
      LowConf
    else if CheckFacePose(face, MaxTiltDeg, deg) then
      Valid
    else
      Tilted
  }

  /** Below the confidence gate the label is `LowConf`, whatever the keypoints. */
  lemma LowConfIgnoresKeypoints(face: Face, kps: seq<Point>, deg: AngleFn, deg': AngleFn)
    requires face.detScore < MinConfidence
    ensures Classify(face, deg) == LowConf
    ensures Classify(face.(kps := kps), deg') == LowConf
  {
  }

  /** Past the gate, with a genuine atan2, `Valid` means the eye line is within
      30 degrees of horizontal. */
  lemma ClassifyValidIsDeviationBound(face: Face, deg: AngleFn)
    requires IsAtan2Degrees(deg)
    requires face.detScore >= MinConfidence && |face.kps| >= 2
    ensures Classify(face, deg) == Valid
            <==> HorizontalDeviation(EyeRollDegrees(face.kps[0], face.kps[1], deg)) <= MaxTiltDeg
  {
  }

  /** The three roll examples: eyes (0,0)-(10,0) level, (10,0)-(0,0) swapped, both
      accepted; (0,0)-(0,10) vertical, rejected with the 30 degree tolerance. */
  lemma RollExamples(deg: AngleFn, bbox: Box, rest: seq<Point>)
    requires IsAtan2Degrees(deg)
    ensures Classify(Face(bbox, 0.9, [Point(0.0, 0.0), Point(10.0, 0.0)] + rest), deg) == Valid
    ensures Classify(Face(bbox, 0.9, [Point(10.0, 0.0), Point(0.0, 0.0)] + rest), deg) == Valid
    ensures Classify(Face(bbox, 0.9, [Point(0.0, 0.0), Point(0.0, 10.0)] + rest), deg) == Tilted
  {
    PoseLevelAccepted(Face(bbox, 0.9, [Point(0.0, 0.0), Point(10.0, 0.0)] + rest), MaxTiltDeg, deg);
    PoseLevelAccepted(Face(bbox, 0.9, [Point(10.0, 0.0), Point(0.0, 0.0)] + rest), MaxTiltDeg, deg);
    PoseVertical(Face(bbox, 0.9, [Point(0.0, 0.0), Point(0.0, 10.0)] + rest), MaxTiltDeg, deg);
  }

  /** The labels of one frame's faces, in detection order (`for face in faces`). */
  function ClassifyAll(faces: seq<Face>, deg: AngleFn): (labels: seq<Label>)
    requires forall i :: 0 <= i < |faces| ==> Labelable(faces[i])
    ensures |labels| == |faces|
    ensures forall i :: 0 <= i < |faces| ==> labels[i] == Classify(faces[i], deg)
  {
    if faces == [] then [] else [Classify(faces[0], deg)] + ClassifyAll(faces[1..], deg)
  }

  /** End to end: one face below the gate and one fully valid face give
      `LowConf` and `Valid`, in that order. */
  lemma TwoFaceFrame(low: Face, good: Face, deg: AngleFn)
    requires IsAtan2Degrees(deg)
    requires low.detScore < MinConfidence
    requires good.detScore >= MinConfidence && |good.kps| >= 2
    requires good.kps[0].y == good.kps[1].y && good.kps[0].x != good.kps[1].x
    ensures ClassifyAll([low, good], deg) == [LowConf, Valid]
  {
    PoseLevelAccepted(good, MaxTiltDeg, deg);
  }
}
