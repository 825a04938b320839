/**
 * Check_with_yunet.py: its copy of the roll check, `check_face_roll`, and the
 * per-row decoding in `main` of a flat YuNet detection row
 * `[x, y, w, h, lx0, ly0, ..., lx4, ly4, score]` into a box, landmark pairs
 * and the trailing score, followed by the roll check on the landmarks.
 */
module YuNetCheck {
  import opened Detection
  import AngleCheck

  /** The tolerance `main` passes to `check_face_roll` (also its default). */
  const MaxTiltDeg: real := 30.0

  datatype Option<T> = None | Some(value: T)

  /** The exceptions the per-row code can raise. */
  datatype Error =
    | BoxUnpack          // `x, y, w_box, h_box = face[:4]` on a row shorter than four
    | OddLandmarkSlice   // `reshape(-1, 2)` on a slice of odd length
    | MissingEye         // `landmarks[0]` or `landmarks[1]` on fewer than two pairs

  datatype Result<T> = Ok(value: T) | Err(error: Error)

  /** `check_face_roll(landmarks, max_tilt_deg)`: true when the eye line is
      within `maxTiltDeg` of 0 or of 180 degrees. */
  function CheckFaceRoll(landmarks: seq<Point>, maxTiltDeg: real, deg: AngleFn): (ok: bool)
    requires |landmarks| >= 2
    ensures var angle := EyeRollDegrees(landmarks[0], landmarks[1], deg);
            ok <==> angle <= maxTiltDeg || 180.0 - angle <= maxTiltDeg
  {
    var leftEye := landmarks[0];
    var rightEye := landmarks[1];
    var dx := rightEye.x - leftEye.x;
    var dy := rightEye.y - leftEye.y;
    var angleDegs := Abs(deg(dy, dx));
    if angleDegs > maxTiltDeg && 180.0 - angleDegs > maxTiltDeg then false else true
  }

  /** The two copies agree: `check_face_roll` on some keypoints is
      `check_face_pose` on a face with those keypoints. */
  lemma RollAgreesWithPose(face: Face, maxTiltDeg: real, deg: AngleFn)
    requires |face.kps| >= 2
    ensures CheckFaceRoll(face.kps, maxTiltDeg, deg) == AngleCheck.CheckFacePose(face, maxTiltDeg, deg)
  {
  }

  /** With a genuine atan2, the check accepts exactly the eye lines whose
      distance from horizontal is at most the tolerance. */
  lemma RollIsDeviationBound(landmarks: seq<Point>, maxTiltDeg: real, deg: AngleFn)
    requires IsAtan2Degrees(deg)
    requires |landmarks| >= 2
    ensures CheckFaceRoll(landmarks, maxTiltDeg, deg)
            <==> HorizontalDeviation(EyeRollDegrees(landmarks[0], landmarks[1], deg)) <= maxTiltDeg
  {
  }

  /** Only `landmarks[0]` and `landmarks[1]` matter. */
  lemma RollDependsOnlyOnEyes(a: seq<Point>, b: seq<Point>, maxTiltDeg: real, deg: AngleFn)
    requires |a| >= 2 && |b| >= 2
    requires a[0] == b[0] && a[1] == b[1]
    ensures CheckFaceRoll(a, maxTiltDeg, deg) == CheckFaceRoll(b, maxTiltDeg, deg)
  {
  }

  /** `reshape(-1, 2)`: consecutive entries taken two at a time as (x, y). */
  function Pairs(s: seq<real>): (ps: seq<Point>)
    requires |s| % 2 == 0
    ensures |ps| == |s| / 2
    ensures forall i :: 0 <= i < |ps| ==> ps[i] == Point(s[2 * i], s[2 * i + 1])
    decreases |s|
  {
    if |s| == 0 then [] else [Point(s[0], s[1])] + Pairs(s[2..])
  }

  /** The inverse of `Pairs`: the points written out as x0, y0, x1, y1, ... */
  function Flatten(ps: seq<Point>): (s: seq<real>)
    ensures |s| == 2 * |ps|
    ensures forall i :: 0 <= i < |ps| ==> s[2 * i] == ps[i].x && s[2 * i + 1] == ps[i].y
  {
    if ps == [] then [] else [ps[0].x, ps[0].y] + Flatten(ps[1..])
  }

  /** Flattening the reshaped pairs gives back the slice. */
  lemma {:induction false} FlattenPairs(s: seq<real>)
    requires |s| % 2 == 0
    ensures Flatten(Pairs(s)) == s
    decreases |s|
  {
    if |s| != 0 {
      assert Pairs(s)[1..] == Pairs(s[2..]);
      FlattenPairs(s[2..]);
      assert s == [s[0], s[1]] + s[2..];
    }
  }

  /** Reshaping flattened points gives back the points. */
  lemma {:induction false} PairsFlatten(ps: seq<Point>)
    ensures |Flatten(ps)| % 2 == 0
    ensures Pairs(Flatten(ps)) == ps
  {
    if ps != [] {
      assert Flatten(ps)[2..] == Flatten(ps[1..]);
      PairsFlatten(ps[1..]);
      assert ps == [ps[0]] + ps[1..];
    }
  }

  /** `face[:4].astype(int)`, read as x, y, width, height. */
  datatype RowBox = RowBox(x: int, y: int, w: int, h: int)

  /** One decoded row: the box, the landmark pairs, and the last entry, the
      score, which the landmark slice leaves out (the script never reads it). */
  datatype DecodedRow = DecodedRow(box: RowBox, landmarks: seq<Point>, score: real)

  /** `face[4:-1]`: everything after the box except the last entry. On a row of
      exactly four entries Python's slice `4:3` is empty. */
  function LandmarkSlice(row: seq<real>): (s: seq<real>)
    requires |row| >= 4
    ensures |row| >= 5 ==> |s| == |row| - 5
    ensures |row| == 4 ==> s == []
    ensures forall i :: 0 <= i < |s| ==> s[i] == row[4 + i]
  {
    if |row| == 4 then [] else row[4..|row| - 1]
  }

  /** The per-row decoding at the top of the face loop; an `Err` is the
      exception the script would raise. */
  function DecodeRow(row: seq<real>): (r: Result<DecodedRow>)
    ensures r.Ok? <==> |row| >= 4 && |LandmarkSlice(row)| % 2 == 0
    ensures r.Err? && |row| < 4 ==> r.error == BoxUnpack
    ensures r.Err? && |row| >= 4 ==> r.error == OddLandmarkSlice
    ensures r.Ok? ==> r.value.box == RowBox(TruncToInt(row[0]), TruncToInt(row[1]), TruncToInt(row[2]), TruncToInt(row[3]))
    ensures r.Ok? ==> r.value.score == row[|row| - 1]
    ensures r.Ok? ==> |r.value.landmarks| == |LandmarkSlice(row)| / 2
    ensures r.Ok? ==> forall i :: 0 <= i < |r.value.landmarks| ==>
                        r.value.landmarks[i] == Point(row[4 + 2 * i], row[5 + 2 * i])
  {
    if |row| < 4 then
      Err(BoxUnpack)
    else
      var box := RowBox(TruncToInt(row[0]), TruncToInt(row[1]), TruncToInt(row[2]), TruncToInt(row[3]));
      var landmarksData := LandmarkSlice(row);
      if |landmarksData| % 2 != 0 then
        Err(OddLandmarkSlice)
      else
        Ok(DecodedRow(box, Pairs(landmarksData), row[|row| - 1]))
  }

  /** The landmarks of a decoded row flatten back to `face[4:-1]`, and the
      trailing score lies past every landmark coordinate. */
  lemma DecodeRowRoundTrip(row: seq<real>)
    requires DecodeRow(row).Ok?
    ensures Flatten(DecodeRow(row).value.landmarks) == LandmarkSlice(row)
    ensures |row| >= 5 ==> 4 + 2 * |DecodeRow(row).value.landmarks| == |row| - 1
  {
    FlattenPairs(LandmarkSlice(row));
  }

  /** A YuNet row has 15 entries: it decodes to five landmark pairs. */
  lemma FifteenEntryRowHasFivePairs(row: seq<real>)
    requires |row| == 15
    ensures DecodeRow(row).Ok?
    ensures |DecodeRow(row).value.landmarks| == 5
  {
  }

  /** The drawn rectangle's corners, `(x, y)` and `(x + w_box, y + h_box)`. */
  function Rectangle(b: RowBox): (corners: IntBox)
    ensures corners.x1 == b.x && corners.y1 == b.y
    ensures corners.x2 - corners.x1 == b.w && corners.y2 - corners.y1 == b.h
  {
    IntBox(b.x, b.y, b.x + b.w, b.y + b.h)
  }

  /** The worked row `[10,10,50,50, 15,20,35,20,25,30,18,40,32,40, 0.92]`. */
  lemma ExampleRow()
    ensures var row := [10.0, 10.0, 50.0, 50.0, 15.0, 20.0, 35.0, 20.0, 25.0, 30.0, 18.0, 40.0, 32.0, 40.0, 0.92];
            && DecodeRow(row).Ok?
            && Rectangle(DecodeRow(row).value.box) == IntBox(10, 10, 60, 60)
            && DecodeRow(row).value.score == 0.92
            && DecodeRow(row).value.landmarks
               == [Point(15.0, 20.0), Point(35.0, 20.0), Point(25.0, 30.0), Point(18.0, 40.0), Point(32.0, 40.0)]
  {
    var row := [10.0, 10.0, 50.0, 50.0, 15.0, 20.0, 35.0, 20.0, 25.0, 30.0, 18.0, 40.0, 32.0, 40.0, 0.92];
    var lm := DecodeRow(row).value.landmarks;
    assert |lm| == 5;
    assert lm[0] == Point(row[4], row[5]);
    assert lm[1] == Point(row[6], row[7]);
    assert lm[2] == Point(row[8], row[9]);
    assert lm[3] == Point(row[10], row[11]);
    assert lm[4] == Point(row[12], row[13]);
  }

  /** What the loop body computes for one face: the decoded row and the roll verdict it prints. */
  datatype Report = Report(decoded: DecodedRow, rollOk: bool)

  /** One iteration of the face loop: decode, then `check_face_roll` with 30 degrees. */
  function ProcessRow(row: seq<real>, deg: AngleFn): (r: Result<Report>)
    ensures r.Ok? <==> DecodeRow(row).Ok? && |DecodeRow(row).value.landmarks| >= 2
    ensures r.Ok? ==> r.value.decoded == DecodeRow(row).value
    ensures r.Ok? ==> var lm := r.value.decoded.landmarks;
                      var angle := EyeRollDegrees(lm[0], lm[1], deg);
                      r.value.rollOk <==> angle <= MaxTiltDeg || angle >= 180.0 - MaxTiltDeg
    ensures r.Err? && DecodeRow(row).Err? ==> r.error == DecodeRow(row).error
    ensures r.Err? && DecodeRow(row).Ok? ==> r.error == MissingEye
  {
    match DecodeRow(row)
    case Err(e) => Err(e)
    case Ok(d) =>
      if |d.landmarks| < 2 then Err(MissingEye)
      else Ok(Report(d, CheckFaceRoll(d.landmarks, MaxTiltDeg, deg)))
  }

  /** A full YuNet row always gets a roll verdict. */
  lemma FifteenEntryRowIsChecked(row: seq<real>, deg: AngleFn)
    requires |row| == 15
    ensures ProcessRow(row, deg).Ok?
  {
    FifteenEntryRowHasFivePairs(row);
  }

  /** `results[1]` or, when the detector returns `None`, the empty list. */
  function FrameFaces(detected: Option<seq<seq<real>>>): (rows: seq<seq<real>>)
    ensures detected.None? ==> rows == []
    ensures detected.Some? ==> rows == detected.value
  {
    match detected
    case None => []
    case Some(rows) => rows
  }

  /** The face loop over one frame, in detection order; the first row that
      raises ends it. */
  function ProcessRows(rows: seq<seq<real>>, deg: AngleFn): (r: Result<seq<Report>>)
    ensures r.Ok? <==> forall i :: 0 <= i < |rows| ==> ProcessRow(rows[i], deg).Ok?
    ensures r.Ok? ==> |r.value| == |rows|
    ensures r.Ok? ==> forall i :: 0 <= i < |rows| ==> r.value[i] == ProcessRow(rows[i], deg).value
    ensures r.Err? ==> exists k :: 0 <= k < |rows| && ProcessRow(rows[k], deg).Err?
                         && r.error == ProcessRow(rows[k], deg).error
                         && forall j :: 0 <= j < k ==> ProcessRow(rows[j], deg).Ok?
  {
    if rows == [] then
      Ok([])
    else
      match ProcessRow(rows[0], deg)
      case Err(e) => Err(e)
      case Ok(report) =>
        match ProcessRows(rows[1..], deg)
        case Err(e) => Err(e)
        case Ok(reports) => Ok([report] + reports)
  }

  /** One frame: the rows the detector returned, each decoded and checked. */
  function ProcessFrame(detected: Option<seq<seq<real>>>, deg: AngleFn): (r: Result<seq<Report>>)
    ensures detected.None? ==> r == Ok([])
    ensures r.Ok? ==> |r.value| == |FrameFaces(detected)|
  {
    ProcessRows(FrameFaces(detected), deg)
  }

  /** A frame of full YuNet rows is processed without error, one report per row. */
  lemma FullRowsFrame(rows: seq<seq<real>>, deg: AngleFn)
    requires forall i :: 0 <= i < |rows| ==> |rows[i]| == 15
    ensures ProcessFrame(Some(rows), deg).Ok?
    ensures |ProcessFrame(Some(rows), deg).value| == |rows|
  {
    forall i | 0 <= i < |rows|
      ensures ProcessRow(rows[i], deg).Ok?
    {
      FifteenEntryRowIsChecked(rows[i], deg);
    }
  }
}
