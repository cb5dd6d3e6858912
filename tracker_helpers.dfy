/**
 * The private helpers of the `Tracker` class: fixed-point bilinear sampling
 * of the binarised frame, the geometry of the sampling strip laid across a
 * marker edge (`MyStrip`), and the centre of four corners.
 */
module TrackerHelpers {
  import opened Basics

  // ---------------------------------------------------------------------
  // Single-channel 8-bit image
  // ---------------------------------------------------------------------

  /** A `CV_8UC1` matrix: `rows` rows of `cols` bytes. */
  datatype GrayImage = GrayImage(rows: nat, cols: nat, pixels: seq<seq<Byte>>) {
    predicate Valid() {
      |pixels| == rows && forall y :: 0 <= y < rows ==> |pixels[y]| == cols
    }
  }

  /** The sentinel `subpixSampleSafe` answers outside the image. */
  const OutOfImageIntensity: int := 127

  /** The sample point has no complete 2x2 neighbourhood inside the image. */
  predicate OutsideSampleArea(img: GrayImage, p: Point) {
    var fx := p.x.Floor;
    var fy := p.y.Floor;
    fx < 0 || fx >= img.cols - 1 || fy < 0 || fy >= img.rows - 1
  }

  function Min(a: int, b: int): int { if a <= b then a else b }
  function Max(a: int, b: int): int { if a <= b then b else a }

  /** The darkest of the four pixels around an in-area sample point. */
  function NeighbourMin(img: GrayImage, p: Point): int
    requires img.Valid() && !OutsideSampleArea(img, p)
  {
    var fx := p.x.Floor;
    var fy := p.y.Floor;
    Min(Min(img.pixels[fy][fx], img.pixels[fy][fx + 1]), Min(img.pixels[fy + 1][fx], img.pixels[fy + 1][fx + 1]))
  }

  /** The brightest of the four pixels around an in-area sample point. */
  function NeighbourMax(img: GrayImage, p: Point): int
    requires img.Valid() && !OutsideSampleArea(img, p)
  {
    var fx := p.x.Floor;
    var fy := p.y.Floor;
    Max(Max(img.pixels[fy][fx], img.pixels[fy][fx + 1]), Max(img.pixels[fy + 1][fx], img.pixels[fy + 1][fx + 1]))
  }

  /** One fixed-point interpolation step `a + ((t * (b - a)) >> 8)`; Dafny's `/` by the positive
      256 floors, as the arithmetic shift does, also for a negative product. */
  function Blend(a: int, b: int, t: int): int {
    a + (t * (b - a)) / 256
  }

  /** A blend with a weight in [0, 256) stays between its two end points. */
  lemma BlendBetween(a: int, b: int, t: int)
    requires 0 <= t < 256
    ensures Min(a, b) <= Blend(a, b, t) <= Max(a, b)
  {
    var d := b - a;
    var q := (t * d) / 256;
    assert t * d == 256 * q + (t * d) % 256;
    if d >= 0 {
      assert 0 <= t * d;
      assert (256 - t) * d >= 0;
      assert t * d <= 256 * d;
    } else {
      assert t * d <= 0;
      assert (256 - t) * (-d) >= 0;
      assert 256 * d <= t * d;
    }
  }

  /** `subpixSampleSafe`: the intensity at a sub-pixel position by 8-bit fixed-point bilinear
      interpolation, or 127 when the 2x2 neighbourhood leaves the image. */
  function SubpixSampleSafe(img: GrayImage, p: Point): (v: int)
    requires img.Valid()
    ensures OutsideSampleArea(img, p) ==> v == OutOfImageIntensity
    ensures !OutsideSampleArea(img, p) ==> NeighbourMin(img, p) <= v <= NeighbourMax(img, p)
    ensures 0 <= v <= 255
  {
    var fx := p.x.Floor;
    var fy := p.y.Floor;
    if fx < 0 || fx >= img.cols - 1 || fy < 0 || fy >= img.rows - 1 then OutOfImageIntensity
    else
      var px := (256.0 * (p.x - fx as real)).Floor;
      var py := (256.0 * (p.y - fy as real)).Floor;
      var a := Blend(img.pixels[fy][fx], img.pixels[fy][fx + 1], px);
      var b := Blend(img.pixels[fy + 1][fx], img.pixels[fy + 1][fx + 1], px);
      BlendBetween(img.pixels[fy][fx], img.pixels[fy][fx + 1], px);
      BlendBetween(img.pixels[fy + 1][fx], img.pixels[fy + 1][fx + 1], px);
      BlendBetween(a, b, py);
      Blend(a, b, py)
  }

  /** At whole-pixel coordinates (both fractions zero) the sample is the pixel itself. */
  lemma SampleAtWholePixel(img: GrayImage, x: int, y: int)
    requires img.Valid()
    requires 0 <= x < img.cols - 1 && 0 <= y < img.rows - 1
    ensures SubpixSampleSafe(img, Point(x as real, y as real)) == img.pixels[y][x]
  {
    var p := Point(x as real, y as real);
    assert p.x.Floor == x && p.y.Floor == y;
    assert (256.0 * (p.x - x as real)).Floor == 0;
    assert (256.0 * (p.y - y as real)).Floor == 0;
  }

  // ---------------------------------------------------------------------
  // The sampling strip (MyStrip, calculate_Stripe)
  // ---------------------------------------------------------------------

  /** `MyStrip`: the strip's length (odd), its half-range of row offsets and its two unit axes. */
  datatype MyStrip = MyStrip(stripeLength: int, nStop: int, nStart: int, stripeVecX: Point, stripeVecY: Point)

  /** The strip is three samples wide. */
  const StripeWidth: int := 3

  /** The invariants `calculate_Stripe` establishes for the strip's integer fields. */
  predicate WellFormedStrip(st: MyStrip) {
    && st.stripeLength >= 5
    && st.stripeLength % 2 == 1
    && st.nStop == st.stripeLength / 2
    && st.nStart == -st.nStop
  }

  /** `n |= 1` on a non-negative int. */
  function OrOne(n: int): int
    requires n >= 0
  {
    if n % 2 == 0 then n + 1 else n
  }

  /** The strip length for an edge step of Euclidean length `diffLength`: the truncated
      0.8 * diffLength, at least 5, made odd. It is the least odd number not below
      max((int)(0.8 * diffLength), 5). */
  function StripeLength(diffLength: real): (len: int)
    requires diffLength >= 0.0
    ensures len >= 5 && len % 2 == 1
    ensures var t := TruncToInt(0.8 * diffLength);
            len - 1 <= Max(t, 5) <= len
  {
    var t := TruncToInt(0.8 * diffLength);
    OrOne(if t < 5 then 5 else t)
  }

  function Dot(u: Point, v: Point): real { u.x * v.x + u.y * v.y }

  /** The strip's first axis: the edge step scaled by the inverse of its length. */
  function StripVecX(dx: real, dy: real, diffLength: real): Point
    requires diffLength != 0.0
  {
    Point(dx / diffLength, dy / diffLength)
  }

  /** The strip's second axis: the first one turned by a quarter (x, y) -> (y, -x). */
  function Perp(v: Point): Point { Point(v.y, -v.x) }

  /** The strip `calculate_Stripe` computes for an edge step (dx, dy) of length `diffLength`. */
  function StripFor(dx: real, dy: real, diffLength: real): (st: MyStrip)
    requires diffLength > 0.0
    ensures WellFormedStrip(st)
  {
    var len := StripeLength(diffLength);
    var vecX := StripVecX(dx, dy, diffLength);
    MyStrip(len, len / 2, -(len / 2), vecX, Perp(vecX))
  }

  /** dx^2 + dy^2, whose square root is the edge step's length. */
  function SquaredLength(dx: real, dy: real): real { dx * dx + dy * dy }

  /** `calculate_Stripe`: fills the strip for an edge step (dx, dy) and allocates the
      3 x stripeLength sample buffer (row-major, so row h, column w is at h * 3 + w).
      `sqrt` is the C library square root. */
  method CalculateStripe(dx: real, dy: real, sqrt: real -> real) returns (st: MyStrip, stripe: array<Byte>)
    requires sqrt(SquaredLength(dx, dy)) > 0.0
    ensures WellFormedStrip(st)
    ensures st.stripeLength == StripeLength(sqrt(SquaredLength(dx, dy)))
    ensures st.stripeVecX == StripVecX(dx, dy, sqrt(SquaredLength(dx, dy)))
    ensures st.stripeVecY == Perp(st.stripeVecX)
    ensures st == StripFor(dx, dy, sqrt(SquaredLength(dx, dy)))
    ensures fresh(stripe) && stripe.Length == StripeWidth * st.stripeLength
  {
    var diffLength := sqrt(SquaredLength(dx, dy));
    var stripeLength := TruncToInt(0.8 * diffLength);
    if stripeLength < 5 {
      stripeLength := 5;
    }
    stripeLength := OrOne(stripeLength);
    var nStop := stripeLength / 2;
    var nStart := -nStop;
    var vecX := Point(dx / diffLength, dy / diffLength);
    var vecY := Point(vecX.y, -vecX.x);
    st := MyStrip(stripeLength, nStop, nStart, vecX, vecY);
    stripe := new Byte[StripeWidth * stripeLength];
  }

  /** The strip's axes are perpendicular and of equal length, and when `diffLength` is the
      exact Euclidean length of (dx, dy) the squared length of the axes times diffLength^2 is
      diffLength^2 (unit length, stated without dividing). */
  lemma StripAxesOrthonormal(dx: real, dy: real, diffLength: real)
    requires diffLength > 0.0 && diffLength * diffLength == dx * dx + dy * dy
    ensures Dot(StripVecX(dx, dy, diffLength), Perp(StripVecX(dx, dy, diffLength))) == 0.0
    ensures Dot(Perp(StripVecX(dx, dy, diffLength)), Perp(StripVecX(dx, dy, diffLength)))
         == Dot(StripVecX(dx, dy, diffLength), StripVecX(dx, dy, diffLength))
    ensures Dot(StripVecX(dx, dy, diffLength), StripVecX(dx, dy, diffLength)) * (diffLength * diffLength)
         == diffLength * diffLength
  {
    var vecX := StripVecX(dx, dy, diffLength);
    assert vecX.x * diffLength == dx && vecX.y * diffLength == dy;
    ScaledLengths(vecX.x, vecX.y, diffLength, dx, dy);
  }

  /** A vector that, scaled by `d`, gives (dx, dy) of squared length d^2 has squared length one
      (multiplied through by d^2). */
  lemma ScaledLengths(vx: real, vy: real, d: real, dx: real, dy: real)
    requires vx * d == dx && vy * d == dy && d * d == dx * dx + dy * dy
    ensures (vx * vx + vy * vy) * (d * d) == d * d
  {
    ScaledSquare(vx, d, dx);
    ScaledSquare(vy, d, dy);
    calc {
      (vx * vx + vy * vy) * (d * d);
      (vx * vx) * (d * d) + (vy * vy) * (d * d);
      dx * dx + dy * dy;
      d * d;
    }
  }

  lemma ScaledSquare(v: real, d: real, w: real)
    requires v * d == w
    ensures (v * v) * (d * d) == w * w
  {
    assert (v * v) * (d * d) == (v * d) * (v * d);
  }

  // ---------------------------------------------------------------------
  // Centre of four corners
  // ---------------------------------------------------------------------

  function Plus(p: Point, q: Point): Point { Point(p.x + q.x, p.y + q.y) }
  function Minus(p: Point, q: Point): Point { Point(p.x - q.x, p.y - q.y) }
  function Half(p: Point): Point { Point(p.x / 2.0, p.y / 2.0) }

  /** `getCenterOfCorners`: the average of the four corners. */
  function CenterOfCorners(c: Quad): Point {
    Point((c[0].x + c[1].x + c[2].x + c[3].x) / 4.0, (c[0].y + c[1].y + c[2].y + c[3].y) / 4.0)
  }

  /** The centre is the balance point of the corners: the only point from which the four
      corner offsets cancel out. */
  lemma CenterIsBalancePoint(c: Quad, p: Point)
    ensures p == CenterOfCorners(c)
            <==> Plus(Plus(Minus(c[0], p), Minus(c[1], p)), Plus(Minus(c[2], p), Minus(c[3], p))) == Point(0.0, 0.0)
  {
  }

  /** Each corner moved by the same offset. */
  function Translated(c: Quad, offset: Point): (r: Quad)
    ensures forall i :: 0 <= i < 4 ==> r[i] == Plus(c[i], offset)
  {
    [Plus(c[0], offset), Plus(c[1], offset), Plus(c[2], offset), Plus(c[3], offset)]
  }

  /** Moving every corner by an offset moves the centre by that offset. */
  lemma CenterFollowsTranslation(c: Quad, offset: Point)
    ensures CenterOfCorners(Translated(c, offset)) == Plus(CenterOfCorners(c), offset)
  {
  }
}
