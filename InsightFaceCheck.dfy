/**
 * Check_with_insightface.py: the validity test inside the face loop of
 * `main`, on the integer-truncated box and the detection score.
 */
module InsightFaceCheck {
  import opened Detection

  /** `FACE_CONFIDENCE_THRESHOLD`. */
  const FaceConfidenceThreshold: real := 0.5
  /** `MIN_FACE_SIZE`, in pixels, for both width and height. */
  const MinFaceSize: int := 60

  datatype Label = Valid | Invalid

  /** `w = x2 - x1` on the truncated box: negative for an inverted box. */
  function Width(b: IntBox): (w: int)
    ensures b.x1 + w == b.x2
    ensures w < 0 <==> b.x2 < b.x1
  {
    b.x2 - b.x1
  }

  /** `h = y2 - y1` on the truncated box: negative for an inverted box. */
  function Height(b: IntBox): (h: int)
    ensures b.y1 + h == b.y2
    ensures h < 0 <==> b.y2 < b.y1
  {
    b.y2 - b.y1
  }

  /** The label of one face: `Valid` when the score and both integer extents
      reach their thresholds (all three bounds inclusive), `Invalid` otherwise. */
  function Classify(face: Face): (verdict: Label)
    ensures verdict == Valid <==>
              && face.detScore >= FaceConfidenceThreshold
              && TruncToInt(face.bbox.x2) - TruncToInt(face.bbox.x1) >= MinFaceSize
              && TruncToInt(face.bbox.y2) - TruncToInt(face.bbox.y1) >= MinFaceSize
  {
    var ib := ToIntBox(face.bbox);
    var conf := face.detScore;
    var w := Width(ib);
    var h := Height(ib);
    if conf >= FaceConfidenceThreshold && w >= MinFaceSize && h >= MinFaceSize then Valid else Invalid
  }

  /** The keypoints play no part in this script's decision. */
  lemma ClassifyIgnoresKeypoints(face: Face, kps: seq<Point>)
    ensures Classify(face.(kps := kps)) == Classify(face)
  {
  }

  /** All three bounds are inclusive: a score of exactly 0.5 and a 60 by 60 box are valid. */
  lemma BoundariesInclusive(face: Face)
    requires face.detScore == FaceConfidenceThreshold
    requires Width(ToIntBox(face.bbox)) == MinFaceSize && Height(ToIntBox(face.bbox)) == MinFaceSize
    ensures Classify(face) == Valid
  {
  }

  /** A score below the threshold is invalid, whatever the box. */
  lemma LowScoreInvalid(face: Face)
    requires face.detScore < FaceConfidenceThreshold
    ensures Classify(face) == Invalid
  {
  }

  /** A box narrower or shorter than 60 pixels after truncation, an inverted
      one included, is invalid, whatever the score. */
  lemma SmallBoxInvalid(face: Face)
    requires Width(ToIntBox(face.bbox)) < MinFaceSize || Height(ToIntBox(face.bbox)) < MinFaceSize
    ensures Classify(face) == Invalid
  {
  }

  /** An inverted reported box (x2 < x1 or y2 < y1) stays inverted or empty
      after truncation, so it is never valid. */
  lemma InvertedBoxInvalid(face: Face)
    requires face.bbox.x2 < face.bbox.x1 || face.bbox.y2 < face.bbox.y1
    ensures Width(ToIntBox(face.bbox)) <= 0 || Height(ToIntBox(face.bbox)) <= 0
    ensures Classify(face) == Invalid
  {
    if face.bbox.x2 < face.bbox.x1 {
      TruncToIntMonotone(face.bbox.x2, face.bbox.x1);
    } else {
      TruncToIntMonotone(face.bbox.y2, face.bbox.y1);
    }
  }

  /** Validity is upward closed: a higher score or a larger box never turns a
      valid face invalid. */
  lemma ClassifyMonotone(f: Face, g: Face)
    requires Classify(f) == Valid
    requires g.detScore >= f.detScore
    requires Width(ToIntBox(g.bbox)) >= Width(ToIntBox(f.bbox))
    requires Height(ToIntBox(g.bbox)) >= Height(ToIntBox(f.bbox))
    ensures Classify(g) == Valid
  {
  }

  /** In terms of the reported float box: extents of at least 61 pixels always
      survive truncation, so with a passing score the face is valid. */
  lemma LargeReportedBoxValid(face: Face)
    requires face.detScore >= FaceConfidenceThreshold
    requires face.bbox.x2 - face.bbox.x1 >= 61.0 && face.bbox.y2 - face.bbox.y1 >= 61.0
    ensures Classify(face) == Valid
  {
    TruncatedExtentBounds(face.bbox.x1, face.bbox.x2);
    TruncatedExtentBounds(face.bbox.y1, face.bbox.y2);
  }

  /** In terms of the reported float box: an extent of at most 58 pixels can
      never reach 60 after truncation, so the face is invalid. */
  lemma SmallReportedBoxInvalid(face: Face)
    requires face.bbox.x2 - face.bbox.x1 <= 58.0 || face.bbox.y2 - face.bbox.y1 <= 58.0
    ensures Classify(face) == Invalid
  {
    TruncatedExtentBounds(face.bbox.x1, face.bbox.x2);
    TruncatedExtentBounds(face.bbox.y1, face.bbox.y2);
  }
}
