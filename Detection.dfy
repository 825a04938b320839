/**
 * What the three webcam scripts share: image points, the insightface face
 * record, numpy's float-to-int cast, the (abstracted) eye-line angle, and a
 * reference notion of how far an eye line is from horizontal.
 */
module Detection {

  /** A 2-D image point in pixels (landmark coordinates stay floating point). */
  datatype Point = Point(x: real, y: real)

  /** A detector bounding box as reported, corners (x1, y1) and (x2, y2). */
  datatype Box = Box(x1: real, y1: real, x2: real, y2: real)

  /** A bounding box after `astype(int)`. */
  datatype IntBox = IntBox(x1: int, y1: int, x2: int, y2: int)

  /** An insightface face: `bbox`, `det_score` and the keypoints `kps`
      (left eye, right eye, nose, left and right mouth corner). */
  datatype Face = Face(bbox: Box, detScore: real, kps: seq<Point>)

  /** `math.degrees(math.atan2(dy, dx))`, arguments in atan2's order.
      The model does not compute trigonometry: the angle is a parameter. */
  type AngleFn = (real, real) -> real

  /** What the proofs rely on about atan2 in degrees: its range, its value on
      the two axes (for positive zero), and that reversing a non-zero vector
      turns its absolute angle `a` into `180 - a`. */
  ghost predicate IsAtan2Degrees(deg: AngleFn)
  {
    && (forall dy, dx :: -180.0 <= deg(dy, dx) <= 180.0)
    && (forall dy, dx :: ReversalSupplements(deg, dy, dx))
    && deg(0.0, 0.0) == 0.0
    && (forall dx :: dx > 0.0 ==> deg(0.0, dx) == 0.0)
    && (forall dx :: dx < 0.0 ==> deg(0.0, dx) == 180.0)
    && (forall dy :: dy > 0.0 ==> deg(dy, 0.0) == 90.0)
    && (forall dy :: dy < 0.0 ==> deg(dy, 0.0) == -90.0)
  }

  /** Reversing the non-zero vector (dx, dy) turns its absolute angle `a`
      into `180 - a`. */
  ghost predicate ReversalSupplements(deg: AngleFn, dy: real, dx: real)
  {
    (dy != 0.0 || dx != 0.0) ==> Abs(deg(-dy, -dx)) == 180.0 - Abs(deg(dy, dx))
  }

  /** Python's `abs` on a float. */
  function Abs(r: real): (a: real)
    ensures 0.0 <= a
    ensures a == r || a == -r
  {
    if r < 0.0 then -r else r
  }

  /** numpy's `astype(int)` on a finite float: truncation toward zero. */
  function TruncToInt(r: real): (n: int)
    ensures 0.0 <= r ==> n as real <= r < n as real + 1.0
    ensures r < 0.0 ==> n as real - 1.0 < r <= n as real
  {
    if r >= 0.0 then r.Floor else -((-r).Floor)
  }

  /** `face.bbox.astype(int)`, unpacked as x1, y1, x2, y2. */
  function ToIntBox(b: Box): (ib: IntBox)
    ensures ib.x1 == TruncToInt(b.x1) && ib.y1 == TruncToInt(b.y1)
    ensures ib.x2 == TruncToInt(b.x2) && ib.y2 == TruncToInt(b.y2)
  {
    IntBox(TruncToInt(b.x1), TruncToInt(b.y1), TruncToInt(b.x2), TruncToInt(b.y2))
  }

  /** The absolute eye-line angle in degrees, from the left to the right eye. */
  function EyeRollDegrees(leftEye: Point, rightEye: Point, deg: AngleFn): (roll: real)
    ensures 0.0 <= roll
    ensures IsAtan2Degrees(deg) ==> roll <= 180.0
  {
    Abs(deg(rightEye.y - leftEye.y, rightEye.x - leftEye.x))
  }

  /** Reference definition: how far an undirected line at `roll` degrees is
      from horizontal, that is its distance to the nearer of 0 and 180. */
  function HorizontalDeviation(roll: real): (d: real)
    requires 0.0 <= roll <= 180.0
    ensures 0.0 <= d <= 90.0
    ensures d == roll || d == 180.0 - roll
    ensures d <= roll && d <= 180.0 - roll
  {
    if roll <= 90.0 then roll else 180.0 - roll
  }

  /** A line and the same line read in the other direction are equally far from horizontal. */
  lemma HorizontalDeviationSymmetric(roll: real)
    requires 0.0 <= roll <= 180.0
    ensures HorizontalDeviation(roll) == HorizontalDeviation(180.0 - roll)
  {
  }

  /** Truncation moves each coordinate by less than one, so an integer extent
      differs from the reported extent by less than two. */
  lemma TruncatedExtentBounds(lo: real, hi: real)
    ensures (hi - lo) - 2.0 < (TruncToInt(hi) - TruncToInt(lo)) as real < (hi - lo) + 2.0
  {
  }

  /** `astype(int)` keeps order: a larger float never gives a smaller int. */
  lemma TruncToIntMonotone(a: real, b: real)
    requires a <= b
    ensures TruncToInt(a) <= TruncToInt(b)
  {
  }
}
