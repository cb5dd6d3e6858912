/**
 * The per-frame marker tracker (`Tracker::track` and the `Tracker` accessors): every contour
 * found in the thresholded frame is a candidate; a candidate that survives the size filter has
 * its four edges refined into fitted lines, its corners computed as line intersections, and is
 * then accepted or rejected on the flood-fill mean of its unwarped marker, its orientation and
 * the OCR label of its kanji. An accepted candidate writes its corners and pose into the
 * tracker's two maps, keyed by the kanji's id.
 *
 * The OpenCV and Tesseract calls the tracker makes are the fields of `Vision`: uninterpreted
 * functions of what the tracker hands them.
 */
module Tracking {
  import opened Basics
  import opened MetaData
  import opened TrackerHelpers
  import opened EdgeRefinement

  /** `cv::Rect` as returned by `boundingRect`. */
  datatype Rect = Rect(x: int, y: int, width: int, height: int)

  /** One `fitLine` result, a column of `lineParams`: direction (vx, vy) through (x0, y0). */
  datatype Line = Line(vx: real, vy: real, x0: real, y0: real)

  /**
   * The library calls of one frame, as functions of their inputs:
   *  - `sqrt` of `calculate_Stripe`;
   *  - `boundingRect` of the approximated contour;
   *  - `fitLine` of the six edge-point slots of one edge;
   *  - `floodMean`: the mean of the marker unwarped from these corners, thresholded and
   *    flood-filled from its four corners;
   *  - `cornerMean(c, r)`: the mean of the 20x20 region at (0, 80) of the eroded marker after
   *    r clockwise quarter turns;
   *  - `ocrText(c, r)`: the Tesseract text of that marker after r quarter turns and flood fill;
   *  - `estimatePose` of the rotated corners in camera coordinates.
   */
  datatype Vision = Vision(
    sqrt: real -> real,
    boundingRect: seq<IntPoint> -> Rect,
    fitLine: seq<Option<EdgePoint>> -> Line,
    floodMean: seq<Option<Point>> -> real,
    cornerMean: (seq<Option<Point>>, nat) -> real,
    ocrText: (seq<Option<Point>>, nat) -> string,
    estimatePose: seq<Option<Point>> -> Matrix4)

  // ---------------------------------------------------------------------
  // Size filter
  // ---------------------------------------------------------------------

  /** The bounding-box test that discards tiny and frame-filling contours. */
  predicate TooSmallOrTooLarge(r: Rect, cols: int, rows: int) {
    r.height < 20 || r.width < 20 || r.width > cols - 10 || r.height > rows - 10
  }

  // ---------------------------------------------------------------------
  // Fitted lines
  // ---------------------------------------------------------------------

  /** The corner index `n % 4`, for the small sums 0 <= n < 8 the tracker forms. */
  function Mod4(n: int): (r: int)
    requires 0 <= n < 8
    ensures 0 <= r < 4
  {
    if n < 4 then n else n - 4
  }

  /** Edge i of a quadrilateral contour has a positive length as `calculate_Stripe` measures it. */
  predicate EdgeMeasurable(approx: seq<IntPoint>, sqrt: real -> real, i: int)
    requires |approx| == 4 && 0 <= i < 4
  {
    var d := EdgeStep(approx[i], approx[(i + 1) % 4]);
    sqrt(SquaredLength(d.x, d.y)) > 0.0
  }

  predicate EdgesMeasurable(approx: seq<IntPoint>, sqrt: real -> real) {
    |approx| == 4 ==> forall i :: 0 <= i < 4 ==> EdgeMeasurable(approx, sqrt, i)
  }

  /** Every edge of a contour that reaches refinement (four vertices, through the size filter)
      has a positive length; contours the filter rejects are unconstrained. */
  predicate Refinable(img: GrayImage, approx: seq<IntPoint>, vision: Vision) {
    |approx| == 4 && !TooSmallOrTooLarge(vision.boundingRect(approx), img.cols, img.rows)
    ==> EdgesMeasurable(approx, vision.sqrt)
  }

  /** The line fitted through the six refined edge points of edge i. */
  function EdgeLine(img: GrayImage, approx: seq<IntPoint>, vision: Vision, i: int): Line
    requires img.Valid() && |approx| == 4 && 0 <= i < 4 && EdgeMeasurable(approx, vision.sqrt, i)
  {
    var a := approx[i];
    var b := approx[(i + 1) % 4];
    vision.fitLine(EdgeSamples(img, a, b, StripFor(EdgeStep(a, b).x, EdgeStep(a, b).y,
                                                   vision.sqrt(SquaredLength(EdgeStep(a, b).x, EdgeStep(a, b).y)))))
  }

  function FittedLines(img: GrayImage, approx: seq<IntPoint>, vision: Vision): (lines: seq<Line>)
    requires img.Valid() && EdgesMeasurable(approx, vision.sqrt) && |approx| == 4
    ensures |lines| == 4
  {
    seq(4, i requires 0 <= i < 4 => EdgeLine(img, approx, vision, i))
  }

  /** Column i of the 4x4 `lineParams` matrix: row 0 holds vx, row 1 vy, row 2 x0, row 3 y0. */
  function LineAt(lineParams: seq<real>, i: int): Line
    requires |lineParams| == 16 && 0 <= i < 4
  {
    Line(lineParams[i], lineParams[4 + i], lineParams[8 + i], lineParams[12 + i])
  }

  function Lines(lineParams: seq<real>): (lines: seq<Line>)
    requires |lineParams| == 16
    ensures |lines| == 4
  {
    seq(4, i requires 0 <= i < 4 => LineAt(lineParams, i))
  }

  /** The edge loop: edge i from vertex i to vertex i + 1 (mod 4) is refined and its line
      written into column i of `lineParams`. */
  method FitLines(img: GrayImage, approx: seq<IntPoint>, vision: Vision) returns (lineParams: array<real>)
    requires img.Valid() && |approx| == 4 && EdgesMeasurable(approx, vision.sqrt)
    ensures fresh(lineParams) && lineParams.Length == 16
    ensures Lines(lineParams[..]) == FittedLines(img, approx, vision)
  {
    lineParams := new real[16](_ => 0.0);
    for i := 0 to 4
      invariant forall c :: 0 <= c < i ==> LineAt(lineParams[..], c) == EdgeLine(img, approx, vision, c)
    {
      assert EdgeMeasurable(approx, vision.sqrt, i);
      var st, edgePointCenters := RefineEdge(img, approx[i], approx[(i + 1) % 4], vision.sqrt);
      var line := vision.fitLine(edgePointCenters[..]);
      lineParams[i] := line.vx;
      lineParams[4 + i] := line.vy;
      lineParams[8 + i] := line.x0;
      lineParams[12 + i] := line.y0;
      assert LineAt(lineParams[..], i) == EdgeLine(img, approx, vision, i);
    }
  }

  // ---------------------------------------------------------------------
  // Corners: intersections of adjacent lines (Cramer's rule)
  // ---------------------------------------------------------------------

  /** The main determinant `c`: zero exactly when the two directions are parallel. */
  function Det(l0: Line, l1: Line): real {
    l1.vy * l0.vx - l0.vy * l1.vx
  }

  function NumX(l0: Line, l1: Line): real {
    l1.x0 * l0.vx * l1.vy - l1.y0 * l0.vx * l1.vx - l0.x0 * l1.vx * l0.vy + l0.y0 * l0.vx * l1.vx
  }

  function NumY(l0: Line, l1: Line): real {
    -l0.x0 * l0.vy * l1.vy + l0.y0 * l0.vx * l1.vy + l1.x0 * l0.vy * l1.vy - l1.y0 * l0.vy * l1.vx
  }

  function Abs(r: real): real { if r < 0.0 then -r else r }

  /** The corner of two adjacent lines, or None for a pair the parallel guard skips. */
  function Intersect(l0: Line, l1: Line): (r: Option<Point>)
    ensures r.None? <==> Abs(Det(l0, l1)) < 0.001
  {
    if Abs(Det(l0, l1)) < 0.001 then None
    else Some(Point(NumX(l0, l1) / Det(l0, l1), NumY(l0, l1) / Det(l0, l1)))
  }

  /** The point at parameter s on line l. */
  function PointOn(l: Line, s: real): Point {
    Point(l.x0 + s * l.vx, l.y0 + s * l.vy)
  }

  /** Cramer's numerator for the parameter along the line other than l. */
  function Cross(l0: Line, l1: Line, l: Line): real {
    (l1.x0 - l0.x0) * l.vy - (l1.y0 - l0.y0) * l.vx
  }

  lemma QuotientOnLine(n: real, c: real, p: real, m: real, w: real)
    requires c != 0.0 && n == p * c + m * w
    ensures n / c == p + (m / c) * w
  {
    var s := m / c;
    assert m == s * c;
    calc {
      p * c + m * w;
      p * c + (s * c) * w;
      { assert (s * c) * w == (s * w) * c; }
      p * c + (s * w) * c;
      (p + s * w) * c;
    }
  }

  /** Each numerator is a point of either line scaled by the determinant. */
  lemma NumeratorsSplit(l0: Line, l1: Line)
    ensures NumX(l0, l1) == l0.x0 * Det(l0, l1) + Cross(l0, l1, l1) * l0.vx
    ensures NumY(l0, l1) == l0.y0 * Det(l0, l1) + Cross(l0, l1, l1) * l0.vy
    ensures NumX(l0, l1) == l1.x0 * Det(l0, l1) + Cross(l0, l1, l0) * l1.vx
    ensures NumY(l0, l1) == l1.y0 * Det(l0, l1) + Cross(l0, l1, l0) * l1.vy
  {
  }

  /** A corner that passes the parallel guard lies on both lines, at the parameters Cramer's
      rule gives for each. */
  lemma CornerOnBothLines(l0: Line, l1: Line)
    requires Intersect(l0, l1).Some?
    ensures Intersect(l0, l1).value == PointOn(l0, Cross(l0, l1, l1) / Det(l0, l1))
    ensures Intersect(l0, l1).value == PointOn(l1, Cross(l0, l1, l0) / Det(l0, l1))
  {
    CornerOnFirstLine(l0, l1);
    CornerOnSecondLine(l0, l1);
  }

  lemma CornerOnFirstLine(l0: Line, l1: Line)
    requires Det(l0, l1) != 0.0
    ensures NumX(l0, l1) / Det(l0, l1) == l0.x0 + (Cross(l0, l1, l1) / Det(l0, l1)) * l0.vx
    ensures NumY(l0, l1) / Det(l0, l1) == l0.y0 + (Cross(l0, l1, l1) / Det(l0, l1)) * l0.vy
  {
    NumeratorsSplit(l0, l1);
    QuotientOnLine(NumX(l0, l1), Det(l0, l1), l0.x0, Cross(l0, l1, l1), l0.vx);
    QuotientOnLine(NumY(l0, l1), Det(l0, l1), l0.y0, Cross(l0, l1, l1), l0.vy);
  }

  lemma CornerOnSecondLine(l0: Line, l1: Line)
    requires Det(l0, l1) != 0.0
    ensures NumX(l0, l1) / Det(l0, l1) == l1.x0 + (Cross(l0, l1, l0) / Det(l0, l1)) * l1.vx
    ensures NumY(l0, l1) / Det(l0, l1) == l1.y0 + (Cross(l0, l1, l0) / Det(l0, l1)) * l1.vy
  {
    NumeratorsSplit(l0, l1);
    QuotientOnLine(NumX(l0, l1), Det(l0, l1), l1.x0, Cross(l0, l1, l0), l1.vx);
    QuotientOnLine(NumY(l0, l1), Det(l0, l1), l1.y0, Cross(l0, l1, l0), l1.vy);
  }

  /** Corner i is the intersection of line i with line i + 1 (mod 4); the parallel guard
      leaves only the slot of that pair unwritten. */
  function CornersOf(lines: seq<Line>): (c: seq<Option<Point>>)
    requires |lines| == 4
    ensures |c| == 4
  {
    seq(4, i requires 0 <= i < 4 => Intersect(lines[i], lines[Mod4(i + 1)]))
  }

  /** A corner slot stays unwritten exactly when its two lines are (nearly) parallel. */
  lemma CornerSkippedIffParallel(lines: seq<Line>, i: int)
    requires |lines| == 4 && 0 <= i < 4
    ensures CornersOf(lines)[i].None? <==> Abs(Det(lines[i], lines[Mod4(i + 1)])) < 0.001
  {
  }

  /** Every written corner lies on both of the lines it joins. */
  lemma CornersLieOnAdjacentLines(lines: seq<Line>, i: int)
    requires |lines| == 4 && 0 <= i < 4 && CornersOf(lines)[i].Some?
    ensures var l0, l1 := lines[i], lines[Mod4(i + 1)];
            CornersOf(lines)[i].value == PointOn(l0, Cross(l0, l1, l1) / Det(l0, l1))
            && CornersOf(lines)[i].value == PointOn(l1, Cross(l0, l1, l0) / Det(l0, l1))
  {
    CornerOnBothLines(lines[i], lines[Mod4(i + 1)]);
  }

  /** A `cv::Point2f` slot: the point, or the origin a default-constructed point holds. */
  function OrOrigin(c: Option<Point>): Point {
    if c.Some? then c.value else Point(0.0, 0.0)
  }

  /** `copyCorners`, a vector of four value-initialised points overwritten where a corner exists. */
  function CopyCorners(c: seq<Option<Point>>): (q: Quad)
    requires |c| == 4
    ensures forall i :: 0 <= i < 4 ==> q[i] == OrOrigin(c[i])
  {
    [OrOrigin(c[0]), OrOrigin(c[1]), OrOrigin(c[2]), OrOrigin(c[3])]
  }

  /** A quad that mirrors every slot of `c` is `copyCorners` of `c`. */
  lemma CopyOfCorners(c: seq<Option<Point>>, q: Quad)
    requires |c| == 4 && forall k :: 0 <= k < 4 ==> q[k] == OrOrigin(c[k])
    ensures q == CopyCorners(c)
  {
  }

  /** The corners read off the columns of `lineParams` are the corners of its lines. */
  lemma CornersOfColumns(lineParams: seq<real>, c: seq<Option<Point>>)
    requires |lineParams| == 16 && |c| == 4
    requires forall k :: 0 <= k < 4 ==> c[k] == Intersect(LineAt(lineParams, k), LineAt(lineParams, Mod4(k + 1)))
    ensures c == CornersOf(Lines(lineParams))
  {
    var lines := Lines(lineParams);
    forall k | 0 <= k < 4
      ensures c[k] == CornersOf(lines)[k]
    {
      assert lines[k] == LineAt(lineParams, k);
      assert lines[Mod4(k + 1)] == LineAt(lineParams, Mod4(k + 1));
    }
  }

  /** The corner loop over `lineParams`: slot i holds the intersection of columns i and
      i + 1 (mod 4), or stays unwritten when they are parallel; `copyCorners` mirrors it. */
  method ComputeCorners(lineParams: array<real>) returns (corners: array<Option<Point>>, copyCorners: Quad)
    requires lineParams.Length == 16
    ensures fresh(corners) && corners.Length == 4
    ensures forall k :: 0 <= k < 4 ==>
              corners[k] == Intersect(LineAt(lineParams[..], k), LineAt(lineParams[..], Mod4(k + 1)))
    ensures forall k :: 0 <= k < 4 ==> copyCorners[k] == OrOrigin(corners[k])
  {
    ghost var params := lineParams[..];
    corners := new Option<Point>[4](_ => None);
    copyCorners := [Point(0.0, 0.0), Point(0.0, 0.0), Point(0.0, 0.0), Point(0.0, 0.0)];
    for i := 0 to 4
      invariant forall k :: 0 <= k < i ==> corners[k] == Intersect(LineAt(params, k), LineAt(params, Mod4(k + 1)))
      invariant forall k :: i <= k < 4 ==> corners[k] == None
      invariant forall k :: 0 <= k < 4 ==> copyCorners[k] == OrOrigin(corners[k])
    {
      var j := (i + 1) % 4;
      var l0 := Line(lineParams[i], lineParams[i + 4], lineParams[i + 8], lineParams[i + 12]);
      var l1 := Line(lineParams[j], lineParams[j + 4], lineParams[j + 8], lineParams[j + 12]);
      assert l0 == LineAt(params, i) && l1 == LineAt(params, Mod4(i + 1));
      var corner := Corner(l0, l1);
      if corner.None? {
        continue;
      }
      corners[i] := corner;
      copyCorners := copyCorners[i := corner.value];
    }
  }

  /** One iteration of the corner loop: Cramer's rule on column i (x0, y0, u0, v0) and
      column j (x1, y1, u1, v1), guarded against parallel lines. */
  method Corner(l0: Line, l1: Line) returns (corner: Option<Point>)
    ensures corner == Intersect(l0, l1)
  {
    var x0, y0, u0, v0 := l0.x0, l0.y0, l0.vx, l0.vy;
    var x1, y1, u1, v1 := l1.x0, l1.y0, l1.vx, l1.vy;
    var a := x1 * u0 * v1 - y1 * u0 * u1 - x0 * u1 * v0 + y0 * u0 * u1;
    var b := -x0 * v0 * v1 + y0 * u0 * v1 + x1 * v0 * v1 - y1 * v0 * u1;
    var c := v1 * u0 - v0 * u1;
    assert a == NumX(l0, l1) && b == NumY(l0, l1) && c == Det(l0, l1);
    if Abs(c) < 0.001 {
      return None;
    }
    a := a / c;
    b := b / c;
    corner := Some(Point(a, b));
  }

  // ---------------------------------------------------------------------
  // Acceptance, orientation and label
  // ---------------------------------------------------------------------

  /** The flood-fill test: a marker whose flood-filled image is neither almost white nor
      mostly black. */
  predicate FloodAccepts(floodMean: real) {
    !(floodMean >= 240.0 || floodMean <= 128.0)
  }

  /** The number of clockwise quarter turns, counted from r, until the bottom-left region is
      dark; 4 when none of the turns r..3 makes it dark. */
  function FirstDarkRotation(cornerMean: (seq<Option<Point>>, nat) -> real, corners: seq<Option<Point>>, r: nat): (k: nat)
    requires r <= 4
    ensures r <= k <= 4
    ensures forall q :: r <= q < k ==> cornerMean(corners, q) > 128.0
    ensures k < 4 ==> cornerMean(corners, k) <= 128.0
    decreases 4 - r
  {
    if r == 4 then 4
    else if cornerMean(corners, r) > 128.0 then FirstDarkRotation(cornerMean, corners, r + 1)
    else r
  }

  /** The rotation loop: turn the eroded marker until its bottom-left region is dark, giving up
      after four turns. */
  method RotationCounter(corners: seq<Option<Point>>, cornerMean: (seq<Option<Point>>, nat) -> real)
    returns (counter: nat)
    ensures counter == FirstDarkRotation(cornerMean, corners, 0)
  {
    counter := 0;
    while cornerMean(corners, counter) > 128.0
      invariant counter < 4
      invariant FirstDarkRotation(cornerMean, corners, counter) == FirstDarkRotation(cornerMean, corners, 0)
      decreases 4 - counter
    {
      counter := counter + 1;
      if counter >= 4 {
        break;
      }
    }
  }

  /** Monji k is the last one whose kanji occurs in `text`. */
  predicate IsLastKanjiIn(objs: seq<Monji>, text: string, k: int) {
    0 <= k < |objs| && Contains(text, objs[k].kanji)
    && forall j :: k < j < |objs| ==> !Contains(text, objs[j].kanji)
  }

  /** Index of the last of objs[..n] whose kanji occurs in `text`, or -1. */
  function LastKanjiIndex(objs: seq<Monji>, text: string, n: nat): (k: int)
    requires n <= |objs|
    ensures -1 <= k < n
    ensures k >= 0 ==> Contains(text, objs[k].kanji) && forall j :: k < j < n ==> !Contains(text, objs[j].kanji)
    ensures k == -1 ==> forall j :: 0 <= j < n ==> !Contains(text, objs[j].kanji)
  {
    if n == 0 then -1
    else if Contains(text, objs[n - 1].kanji) then n - 1
    else LastKanjiIndex(objs, text, n - 1)
  }

  /** The classification loop over the whitelist. */
  method ClassifyKanji(objs: seq<Monji>, outText: string) returns (foundIdx: int)
    ensures foundIdx == LastKanjiIndex(objs, outText, |objs|)
    ensures foundIdx != -1 ==> IsLastKanjiIn(objs, outText, foundIdx)
  {
    foundIdx := -1;
    for i := 0 to |objs|
      invariant foundIdx == LastKanjiIndex(objs, outText, i)
    {
      if !Contains(outText, objs[i].kanji) {
        continue;
      }
      foundIdx := i;
    }
  }

  /** When a single whitelist kanji occurs in the text, the tracker's last-match label and the
      dictionary's first-match `getIdByKanji` name the same monji. */
  lemma LabelAgreesWithDictionary(objs: seq<Monji>, text: string, k: int)
    requires 0 <= k < |objs| && Contains(text, objs[k].kanji)
    requires forall j :: 0 <= j < |objs| && j != k ==> !Contains(text, objs[j].kanji)
    ensures LastKanjiIndex(objs, text, |objs|) == k
    ensures GetIdByKanji(objs, text) == objs[k].id
  {
    assert FirstKanjiMatch(objs, text, k);
    GetIdByKanjiFindsFirstMatch(objs, text);
  }

  // ---------------------------------------------------------------------
  // Output: corner order and camera coordinates
  // ---------------------------------------------------------------------

  /** The corners after `corrected[(counter + i) % 4] = corners[i]`. */
  function Rotated<T>(c: seq<T>, counter: int): (r: seq<T>)
    requires |c| == 4 && 0 <= counter < 4
    ensures |r| == 4
    ensures forall i :: 0 <= i < 4 ==> r[Mod4(counter + i)] == c[i]
    ensures counter == 0 ==> r == c
  {
    c[4 - counter..] + c[..4 - counter]
  }

  /** The reordering only permutes the corners. */
  lemma RotatedIsPermutation<T>(c: seq<T>, counter: int)
    requires |c| == 4 && 0 <= counter < 4
    ensures multiset(Rotated(c, counter)) == multiset(c)
  {
    assert c == c[..4 - counter] + c[4 - counter..];
  }

  /** Reordering the corners does not move their centre. */
  lemma CenterUnchangedByRotation(c: Quad, counter: int)
    requires 0 <= counter < 4
    ensures CenterOfCorners(Rotated(c, counter)) == CenterOfCorners(c)
  {
    var r := Rotated(c, counter);
    assert r[Mod4(counter)] == c[0] && r[Mod4(counter + 1)] == c[1];
    assert r[Mod4(counter + 2)] == c[2] && r[Mod4(counter + 3)] == c[3];
  }

  /** The first loop of the reorder step: `corrected_corners[(counter + i) % 4] = corners[i]`. */
  method RotatedCopy(corners: array<Option<Point>>, counter: int) returns (corrected: array<Option<Point>>)
    requires corners.Length == 4 && 0 <= counter < 4
    ensures fresh(corrected) && corrected.Length == 4
    ensures corrected[..] == Rotated(corners[..], counter)
  {
    corrected := new Option<Point>[4](_ => None);
    for i := 0 to 4
      invariant forall k :: 0 <= k < i ==> corrected[Mod4(counter + k)] == corners[k]
    {
      assert (counter + i) % 4 == Mod4(counter + i);
      corrected[(counter + i) % 4] := corners[i];
    }
    ghost var r := Rotated(corners[..], counter);
    forall k | 0 <= k < 4
      ensures corrected[k] == r[k]
    {
      var i := Mod4(k - counter + 4);
      assert Mod4(counter + i) == k;
    }
  }

  /** The reorder step, through the scratch array `corrected_corners`. */
  method ReorderCorners(corners: array<Option<Point>>, counter: int)
    requires corners.Length == 4 && 0 <= counter < 4
    modifies corners
    ensures corners[..] == Rotated(old(corners[..]), counter)
  {
    if counter != 0 {
      var corrected := RotatedCopy(corners, counter);
      ghost var r := corrected[..];
      for i := 0 to 4
        invariant corrected[..] == r
        invariant forall k :: 0 <= k < i ==> corners[k] == r[k]
      {
        corners[i] := corrected[i];
      }
      assert corners[..] == r;
    }
  }

  /** Screen to camera coordinates: origin at the principal point (320, 240), y upwards. */
  function ToCamera(p: Point): (q: Point)
    ensures FromCamera(q) == p
  {
    Point(p.x - 320.0, -p.y + 240.0)
  }

  function FromCamera(q: Point): (p: Point) {
    Point(q.x + 320.0, 240.0 - q.y)
  }

  /** Every written corner moved to camera coordinates. */
  function CameraCorners(c: seq<Option<Point>>): (r: seq<Option<Point>>)
    ensures |r| == |c|
    ensures forall i :: 0 <= i < |c| ==> (r[i].Some? <==> c[i].Some?)
    ensures forall i :: 0 <= i < |c| && c[i].Some? ==> FromCamera(r[i].value) == c[i].value
  {
    seq(|c|, i requires 0 <= i < |c| => if c[i].Some? then Some(ToCamera(c[i].value)) else None)
  }

  /** The shift loop. */
  method ShiftToCamera(corners: array<Option<Point>>)
    modifies corners
    ensures corners[..] == CameraCorners(old(corners[..]))
  {
    for i := 0 to corners.Length
      invariant forall k :: 0 <= k < i ==> corners[k] == CameraCorners(old(corners[..]))[k]
      invariant forall k :: i <= k < corners.Length ==> corners[k] == old(corners[k])
    {
      if corners[i].Some? {
        var p := corners[i].value;
        corners[i] := Some(Point(p.x - 320.0, -p.y + 240.0));
      }
    }
  }

  // ---------------------------------------------------------------------
  // One candidate
  // ---------------------------------------------------------------------

  /** What an accepted candidate writes: its label's id, the unrotated image-space corners and
      the estimated pose. */
  datatype Detection = Detection(id: int, corners: Quad, pose: Matrix4)

  /** The decision on a candidate whose corners are known. */
  function Decide(objs: seq<Monji>, corners: seq<Option<Point>>, vision: Vision): (r: Option<Detection>)
    requires |corners| == 4
    ensures r.Some? ==> 128.0 < vision.floodMean(corners) < 240.0
    ensures r.Some? ==> var counter := FirstDarkRotation(vision.cornerMean, corners, 0);
              counter < 4 && vision.cornerMean(corners, counter) <= 128.0
              && (forall q :: 0 <= q < counter ==> vision.cornerMean(corners, q) > 128.0)
              && exists k :: IsLastKanjiIn(objs, vision.ocrText(corners, counter), k) && objs[k].id == r.value.id
    ensures r.Some? ==> r.value.corners == CopyCorners(corners)
    ensures r.Some? ==> var counter := FirstDarkRotation(vision.cornerMean, corners, 0);
              r.value.pose == vision.estimatePose(CameraCorners(Rotated(corners, counter)))
    ensures r.None? ==> var counter := FirstDarkRotation(vision.cornerMean, corners, 0);
              !(128.0 < vision.floodMean(corners) < 240.0) || counter == 4
              || forall j :: 0 <= j < |objs| ==> !Contains(vision.ocrText(corners, counter), objs[j].kanji)
  {
    if !FloodAccepts(vision.floodMean(corners)) then None
    else
      var counter := FirstDarkRotation(vision.cornerMean, corners, 0);
      if counter >= 4 then None
      else
        var foundIdx := LastKanjiIndex(objs, vision.ocrText(corners, counter), |objs|);
        if foundIdx == -1 then None
        else
          assert IsLastKanjiIn(objs, vision.ocrText(corners, counter), foundIdx);
          Some(Detection(objs[foundIdx].id, CopyCorners(corners),
                         vision.estimatePose(CameraCorners(Rotated(corners, counter)))))
  }

  /** What one contour contributes to the frame: a detection, or None when a test rejects it. */
  function CandidateResult(img: GrayImage, objs: seq<Monji>, approx: seq<IntPoint>, vision: Vision): (r: Option<Detection>)
    requires img.Valid() && Refinable(img, approx, vision)
    ensures r.Some? ==> |approx| == 4
    ensures r.Some? ==> var box := vision.boundingRect(approx);
              20 <= box.width <= img.cols - 10 && 20 <= box.height <= img.rows - 10
    ensures |approx| != 4 || TooSmallOrTooLarge(vision.boundingRect(approx), img.cols, img.rows) ==> r.None?
    ensures |approx| == 4 && !TooSmallOrTooLarge(vision.boundingRect(approx), img.cols, img.rows) ==>
              r == Decide(objs, CornersOf(FittedLines(img, approx, vision)), vision)
  {
    if |approx| != 4 then None
    else if TooSmallOrTooLarge(vision.boundingRect(approx), img.cols, img.rows) then None
    else Decide(objs, CornersOf(FittedLines(img, approx, vision)), vision)
  }

  /** The body of the contour loop for one contour, up to the two map writes. */
  method ProcessCandidate(img: GrayImage, objs: seq<Monji>, approx: seq<IntPoint>, vision: Vision)
    returns (result: Option<Detection>)
    requires img.Valid() && Refinable(img, approx, vision)
    ensures result == CandidateResult(img, objs, approx, vision)
  {
    if |approx| != 4 {
      return None;
    }
    var r := vision.boundingRect(approx);
    if r.height < 20 || r.width < 20 || r.width > img.cols - 10 || r.height > img.rows - 10 {
      return None;
    }
    var corners, copyCorners := FindCorners(img, approx, vision);
    result := AcceptCandidate(objs, corners, copyCorners, vision);
  }

  /** The edge loop followed by the corner loop. */
  method FindCorners(img: GrayImage, approx: seq<IntPoint>, vision: Vision)
    returns (corners: array<Option<Point>>, copyCorners: Quad)
    requires img.Valid() && |approx| == 4 && EdgesMeasurable(approx, vision.sqrt)
    ensures fresh(corners) && corners.Length == 4
    ensures corners[..] == CornersOf(FittedLines(img, approx, vision))
    ensures copyCorners == CopyCorners(corners[..])
  {
    var lineParams := FitLines(img, approx, vision);
    corners, copyCorners := ComputeCorners(lineParams);
    CornersOfColumns(lineParams[..], corners[..]);
    CopyOfCorners(corners[..], copyCorners);
  }

  /** The tests after the corners are known: flood fill, orientation and label, then the
      reorder, the shift to camera coordinates and the pose. */
  method AcceptCandidate(objs: seq<Monji>, corners: array<Option<Point>>, copyCorners: Quad, vision: Vision)
    returns (result: Option<Detection>)
    requires corners.Length == 4 && copyCorners == CopyCorners(corners[..])
    modifies corners
    ensures result == Decide(objs, old(corners[..]), vision)
  {
    var floodMean := vision.floodMean(corners[..]);
    if floodMean >= 240.0 || floodMean <= 128.0 {
      return None;
    }
    var counter := RotationCounter(corners[..], vision.cornerMean);
    if counter >= 4 {
      return None;
    }
    var outText := vision.ocrText(corners[..], counter);
    var foundIdx := ClassifyKanji(objs, outText);
    if foundIdx == -1 {
      return None;
    }
    var id := objs[foundIdx].id;
    ReorderCorners(corners, counter);
    ShiftToCamera(corners);
    var resultMatrix := vision.estimatePose(corners[..]);
    result := Some(Detection(id, copyCorners, resultMatrix));
  }

  // ---------------------------------------------------------------------
  // The frame: the contour loop and the two maps
  // ---------------------------------------------------------------------

  /** The candidates of the first n contours, in loop order. */
  function Outcomes(img: GrayImage, objs: seq<Monji>, contours: seq<seq<IntPoint>>, vision: Vision, n: nat)
    : (ds: seq<Option<Detection>>)
    requires img.Valid() && n <= |contours|
    requires forall k :: 0 <= k < |contours| ==> Refinable(img, contours[k], vision)
    ensures |ds| == n
  {
    if n == 0 then []
    else Outcomes(img, objs, contours, vision, n - 1) + [CandidateResult(img, objs, contours[n - 1], vision)]
  }

  function PoseOf(d: Detection): Matrix4 { d.pose }
  function CornersOfDetection(d: Detection): Quad { d.corners }

  /** A map after `m[d.id] = field(d)` for each detection d, in order. */
  function Recorded<V>(m: map<int, V>, ds: seq<Option<Detection>>, field: Detection -> V): map<int, V> {
    if |ds| == 0 then m
    else
      var before := Recorded(m, ds[..|ds| - 1], field);
      match ds[|ds| - 1]
      case None => before
      case Some(d) => before[d.id := field(d)]
  }

  /** One more candidate: a detection overwrites its id's entry, a rejection changes nothing. */
  lemma RecordedNext<V>(m: map<int, V>, ds: seq<Option<Detection>>, d: Option<Detection>, field: Detection -> V)
    ensures Recorded(m, ds + [d], field)
            == if d.Some? then Recorded(m, ds, field)[d.value.id := field(d.value)] else Recorded(m, ds, field)
  {
    assert (ds + [d])[..|ds|] == ds;
  }

  /** The map after k + 1 contours is the map after k with contour k's outcome written. */
  lemma OutcomesNext<V>(img: GrayImage, objs: seq<Monji>, contours: seq<seq<IntPoint>>, vision: Vision, k: nat,
                        m: map<int, V>, field: Detection -> V)
    requires img.Valid() && k < |contours|
    requires forall j :: 0 <= j < |contours| ==> Refinable(img, contours[j], vision)
    ensures var d := CandidateResult(img, objs, contours[k], vision);
            var before := Recorded(m, Outcomes(img, objs, contours, vision, k), field);
            Recorded(m, Outcomes(img, objs, contours, vision, k + 1), field)
            == if d.Some? then before[d.value.id := field(d.value)] else before
  {
    RecordedNext(m, Outcomes(img, objs, contours, vision, k), CandidateResult(img, objs, contours[k], vision), field);
  }

  /** Index of the last detection with the given id, or -1. */
  function LastDetectionIndex(ds: seq<Option<Detection>>, id: int): (k: int)
    ensures -1 <= k < |ds|
    ensures k >= 0 ==> ds[k].Some? && ds[k].value.id == id
    ensures forall j :: k < j < |ds| ==> !(ds[j].Some? && ds[j].value.id == id)
  {
    if |ds| == 0 then -1
    else if ds[|ds| - 1].Some? && ds[|ds| - 1].value.id == id then |ds| - 1
    else LastDetectionIndex(ds[..|ds| - 1], id)
  }

  /** Last write wins: after the frame, a key holds the value of the last detection with that
      id; a key no detection names keeps its value from before the frame, and no other key
      appears. */
  lemma {:induction false} LastDetectionWins<V>(m: map<int, V>, ds: seq<Option<Detection>>, field: Detection -> V, id: int)
    ensures var k := LastDetectionIndex(ds, id);
            k >= 0 ==> id in Recorded(m, ds, field) && Recorded(m, ds, field)[id] == field(ds[k].value)
    ensures LastDetectionIndex(ds, id) == -1 ==>
              (id in Recorded(m, ds, field) <==> id in m) && (id in m ==> Recorded(m, ds, field)[id] == m[id])
    decreases |ds|
  {
    if |ds| > 0 {
      var init := ds[..|ds| - 1];
      LastDetectionWins(m, init, field, id);
      if !(ds[|ds| - 1].Some? && ds[|ds| - 1].value.id == id) {
        assert LastDetectionIndex(ds, id) == LastDetectionIndex(init, id);
        var k := LastDetectionIndex(ds, id);
        if k >= 0 {
          assert ds[k] == init[k];
        }
      }
    }
  }

  /** The tracker: the whitelist it classifies against and the two result maps. */
  class Tracker {
    const objs: seq<Monji>
    var detectedMarkers: map<int, Matrix4>
    var detectedMarkerCorners: map<int, Quad>

    constructor(objs: seq<Monji>)
      ensures this.objs == objs
      ensures detectedMarkers == map[] && detectedMarkerCorners == map[]
    {
      this.objs := objs;
      detectedMarkers := map[];
      detectedMarkerCorners := map[];
    }

    /** `track` on a thresholded frame whose approximated contours are `contours`. The maps are
        not cleared first: each accepted candidate overwrites its id's entries. */
    method Track(img: GrayImage, contours: seq<seq<IntPoint>>, vision: Vision)
      requires img.Valid()
      requires forall k :: 0 <= k < |contours| ==> Refinable(img, contours[k], vision)
      modifies this
      ensures detectedMarkers == Recorded(old(detectedMarkers), Outcomes(img, objs, contours, vision, |contours|), PoseOf)
      ensures detectedMarkerCorners
              == Recorded(old(detectedMarkerCorners), Outcomes(img, objs, contours, vision, |contours|), CornersOfDetection)
    {
      for k := 0 to |contours|
        invariant detectedMarkers == Recorded(old(detectedMarkers), Outcomes(img, objs, contours, vision, k), PoseOf)
        invariant detectedMarkerCorners
                  == Recorded(old(detectedMarkerCorners), Outcomes(img, objs, contours, vision, k), CornersOfDetection)
      {
        var result := ProcessCandidate(img, objs, contours[k], vision);
        OutcomesNext(img, objs, contours, vision, k, old(detectedMarkers), PoseOf);
        OutcomesNext(img, objs, contours, vision, k, old(detectedMarkerCorners), CornersOfDetection);
        if result.Some? {
          detectedMarkerCorners := detectedMarkerCorners[result.value.id := result.value.corners];
          detectedMarkers := detectedMarkers[result.value.id := result.value.pose];
        }
      }
    }

    /** `cleanDetectedMarkers`: both maps emptied. */
    method CleanDetectedMarkers()
      modifies this
      ensures detectedMarkers == map[] && detectedMarkerCorners == map[]
    {
      detectedMarkers := map[];
      detectedMarkerCorners := map[];
    }

    /** `getDetectedMarkerCenter`: the centre of every detected marker's corners, by id. */
    method GetDetectedMarkerCenter() returns (res: map<int, Point>)
      ensures res.Keys == detectedMarkerCorners.Keys
      ensures forall id :: id in res ==> res[id] == CenterOfCorners(detectedMarkerCorners[id])
    {
      res := map[];
      var remaining := detectedMarkerCorners.Keys;
      while remaining != {}
        invariant remaining <= detectedMarkerCorners.Keys
        invariant res.Keys == detectedMarkerCorners.Keys - remaining
        invariant forall id :: id in res ==> res[id] == CenterOfCorners(detectedMarkerCorners[id])
        decreases remaining
      {
        NonEmptyHasKey(remaining);
        var id :| id in remaining;
        res := res[id := CenterOfCorners(detectedMarkerCorners[id])];
        remaining := remaining - {id};
      }
    }

    /** `getMarkerPoseById`; None where `map::at` throws `out_of_range`. After `Track` (and
        `LastDetectionWins`) the pose returned is that of the frame's last accepted candidate
        with this id, or the one an earlier frame left when no candidate carried it. */
    function GetMarkerPoseById(id: int): (r: Option<Matrix4>)
      reads this
      ensures r.Some? <==> id in detectedMarkers
      ensures r.Some? ==> r.value == detectedMarkers[id]
    {
      if id in detectedMarkers then Some(detectedMarkers[id]) else None
    }

    /** `getMarkerCenterById`; None where `map::at` throws `out_of_range`. The centre is that of
        the corners `Track` last recorded for the id. */
    function GetMarkerCenterById(id: int): (r: Option<Point>)
      reads this
      ensures r.Some? <==> id in detectedMarkerCorners
      ensures r.Some? ==> r.value == CenterOfCorners(detectedMarkerCorners[id])
    {
      if id in detectedMarkerCorners then Some(CenterOfCorners(detectedMarkerCorners[id])) else None
    }

    /** `getMarkerCornersById`; None where `map::at` throws `out_of_range`. The corners are the
        image-space corners `Track` last recorded for the id. */
    function GetMarkerCornersById(id: int): (r: Option<Quad>)
      reads this
      ensures r.Some? <==> id in detectedMarkerCorners
      ensures r.Some? ==> r.value == detectedMarkerCorners[id]
    {
      if id in detectedMarkerCorners then Some(detectedMarkerCorners[id]) else None
    }
  }
}
