/**
 * Sub-pixel refinement of one marker edge (the first half of the per-candidate
 * body of `Tracker::track`): six sample positions along the edge, a 3 x L strip
 * of interpolated intensities across the edge at each of them, a vertical
 * Sobel pass down the strip, the running argmax of the gradient, and the
 * parabola through the peak and its two neighbours.
 */
module EdgeRefinement {
  import opened Basics
  import opened TrackerHelpers

  // ---------------------------------------------------------------------
  // Filling the strip
  // ---------------------------------------------------------------------

  /** The sub-pixel position sampled for strip cell (m, n) around the sample point `p`:
      m steps along the edge, n steps across it. */
  function StripPoint(p: IntPoint, st: MyStrip, m: int, n: int): Point {
    Point(p.x as real + m as real * st.stripeVecX.x + n as real * st.stripeVecY.x,
          p.y as real + m as real * st.stripeVecX.y + n as real * st.stripeVecY.y)
  }

  /** Where cell (m, n) is stored: row h = n + (stripeLength >> 1), column w = m + 1 of the
      row-major, three-wide buffer. */
  function CellIndex(st: MyStrip, m: int, n: int): int {
    (n + st.stripeLength / 2) * StripeWidth + (m + 1)
  }

  /** The sample the fill stores in cell k: row k / 3 and column k % 3 hold the sample taken
      at (m, n) = (k % 3 - 1, k / 3 - nStop). */
  function CellSample(img: GrayImage, p: IntPoint, st: MyStrip, k: int): Byte
    requires img.Valid()
  {
    SubpixSampleSafe(img, StripPoint(p, st, k % 3 - 1, k / 3 - st.nStop))
  }

  /** The first `n` cells of the strip as the fill leaves them. */
  function StripeCells(img: GrayImage, p: IntPoint, st: MyStrip, n: nat): (s: seq<Byte>)
    requires img.Valid()
    ensures |s| == n
  {
    if n == 0 then [] else StripeCells(img, p, st, n - 1) + [CellSample(img, p, st, n - 1)]
  }

  /** The whole strip as the fill leaves it. */
  function StripeValues(img: GrayImage, p: IntPoint, st: MyStrip): (s: seq<Byte>)
    requires img.Valid() && WellFormedStrip(st)
    ensures |s| == StripeWidth * st.stripeLength
  {
    StripeCells(img, p, st, StripeWidth * st.stripeLength)
  }

  /** Cell k of the strip is the sample of its own row and column. */
  lemma {:induction false} StripeCellsAt(img: GrayImage, p: IntPoint, st: MyStrip, n: nat)
    requires img.Valid()
    ensures forall k :: 0 <= k < n ==> StripeCells(img, p, st, n)[k] == CellSample(img, p, st, k)
  {
    if n > 0 {
      StripeCellsAt(img, p, st, n - 1);
    }
  }

  /** The fill loops visit every cell of the buffer exactly once: each (m, n) of the loop ranges
      lands in the buffer at row n + nStop and column m + 1, so distinct pairs land in distinct
      cells, and every cell is the landing place of the pair read back from its row and column. */
  lemma StripCellsBijective(st: MyStrip)
    requires WellFormedStrip(st)
    ensures forall m, n :: -1 <= m <= 1 && st.nStart <= n <= st.nStop ==>
      && 0 <= CellIndex(st, m, n) < StripeWidth * st.stripeLength
      && CellIndex(st, m, n) % 3 == m + 1
      && CellIndex(st, m, n) / 3 == n + st.nStop
    ensures forall k :: 0 <= k < StripeWidth * st.stripeLength ==>
      && -1 <= k % 3 - 1 <= 1
      && st.nStart <= k / 3 - st.nStop <= st.nStop
      && CellIndex(st, k % 3 - 1, k / 3 - st.nStop) == k
  {
    forall m, n | -1 <= m <= 1 && st.nStart <= n <= st.nStop
      ensures 0 <= CellIndex(st, m, n) < StripeWidth * st.stripeLength
      ensures CellIndex(st, m, n) % 3 == m + 1 && CellIndex(st, m, n) / 3 == n + st.nStop
    {
      CellOfRowColumn(n + st.nStop, m + 1);
    }
  }

  /** Row-major addressing in a three-wide buffer. */
  lemma CellOfRowColumn(h: int, w: int)
    requires 0 <= h && 0 <= w < 3
    ensures (h * 3 + w) % 3 == w && (h * 3 + w) / 3 == h
  {
  }

  /** The two nested loops over m in [-1, 1] and n in [nStart, nStop] that sample the strip into
      the buffer `calculate_Stripe` allocated. */
  method FillStripe(img: GrayImage, p: IntPoint, st: MyStrip, stripe: array<Byte>)
    requires img.Valid() && WellFormedStrip(st)
    requires stripe.Length == StripeWidth * st.stripeLength
    modifies stripe
    ensures stripe[..] == StripeValues(img, p, st)
  {
    for m := -1 to 2
      invariant forall k :: 0 <= k < stripe.Length && k % 3 < m + 1 ==> stripe[k] == CellSample(img, p, st, k)
    {
      for n := st.nStart to st.nStop + 1
        invariant forall k :: 0 <= k < stripe.Length && k % 3 < m + 1 ==> stripe[k] == CellSample(img, p, st, k)
        invariant forall k :: 0 <= k < stripe.Length && k % 3 == m + 1 && k / 3 < n + st.nStop ==>
                    stripe[k] == CellSample(img, p, st, k)
      {
        var subPixel := StripPoint(p, st, m, n);
        var pixelIntensity := SubpixSampleSafe(img, subPixel);
        var w := m + 1;
        var h := n + st.stripeLength / 2;
        CellOfRowColumn(h, w);
        stripe[h * StripeWidth + w] := pixelIntensity;
      }
    }
    StripeCellsAt(img, p, st, stripe.Length);
  }

  // ---------------------------------------------------------------------
  // Sobel pass
  // ---------------------------------------------------------------------

  /** Row h of the strip weighted (1, 2, 1) across its three columns. */
  function RowWeight(s: seq<Byte>, h: int): (r: int)
    requires 0 <= h && 3 * h + 2 < |s|
    ensures 0 <= r <= 1020
  {
    s[3 * h] as int + 2 * s[3 * h + 1] as int + s[3 * h + 2] as int
  }

  /** The vertical Sobel response at strip row n: row n + 1 minus row n - 1, both weighted
      (1, 2, 1). It lies in [-1020, 1020]. */
  function SobelAt(s: seq<Byte>, n: int): (g: int)
    requires 1 <= n && 3 * (n + 1) + 2 < |s|
    ensures -1020 <= g <= 1020
    ensures g == RowWeight(s, n + 1) - RowWeight(s, n - 1)
  {
    -(s[3 * (n - 1)] as int) - 2 * s[3 * (n - 1) + 1] as int - s[3 * (n - 1) + 2] as int
    + (s[3 * (n + 1)] as int + 2 * s[3 * (n + 1) + 1] as int + s[3 * (n + 1) + 2] as int)
  }

  /** The responses of inner rows 1..n. */
  function SobelPrefix(s: seq<Byte>, n: nat): (v: seq<int>)
    requires 3 * (n + 1) + 2 < |s|
    ensures |v| == n
    ensures forall i :: 0 <= i < n ==> -1020 <= v[i] <= 1020
  {
    if n == 0 then [] else SobelPrefix(s, n - 1) + [SobelAt(s, n)]
  }

  /** `sobelValues`: one response per inner strip row; entry i belongs to row i + 1. */
  function SobelValues(s: seq<Byte>, len: int): (v: seq<int>)
    requires len >= 3 && |s| == StripeWidth * len
    ensures |v| == len - 2
    ensures forall i :: 0 <= i < |v| ==> -1020 <= v[i] <= 1020
  {
    SobelPrefix(s, len - 2)
  }

  /** Entry i of the responses is the Sobel response of row i + 1. */
  lemma {:induction false} SobelPrefixAt(s: seq<Byte>, n: nat)
    requires 3 * (n + 1) + 2 < |s|
    ensures forall i :: 0 <= i < n ==> SobelPrefix(s, n)[i] == SobelAt(s, i + 1)
  {
    if n > 0 {
      SobelPrefixAt(s, n - 1);
    }
  }

  /** The Sobel loop: a row pointer at row n - 1 for the upper kernel row, advanced by two
      rows for the lower one. */
  method SobelProfile(stripe: array<Byte>, stripeLength: int) returns (sobelValues: array<int>)
    requires stripeLength >= 3 && stripe.Length == StripeWidth * stripeLength
    ensures fresh(sobelValues)
    ensures sobelValues[..] == SobelValues(stripe[..], stripeLength)
  {
    sobelValues := new int[stripeLength - 2];
    for n := 1 to stripeLength - 1
      invariant forall i :: 0 <= i < n - 1 ==> sobelValues[i] == SobelAt(stripe[..], i + 1)
    {
      var stripePtr := (n - 1) * StripeWidth;
      var r1 := -(stripe[stripePtr] as int) - 2 * stripe[stripePtr + 1] as int - stripe[stripePtr + 2] as int;
      stripePtr := stripePtr + 2 * StripeWidth;
      var r3 := stripe[stripePtr] as int + 2 * stripe[stripePtr + 1] as int + stripe[stripePtr + 2] as int;
      sobelValues[n - 1] := r1 + r3;
    }
    SobelPrefixAt(stripe[..], stripeLength - 2);
  }

  // ---------------------------------------------------------------------
  // Running argmax
  // ---------------------------------------------------------------------

  /** (maxIntensity, maxIntensityIndex) after the first k responses: it starts at (-1, 0) and
      moves only to a strictly greater value. */
  function RunningMax(v: seq<int>, k: nat): (r: (int, int))
    requires k <= |v|
    ensures 0 <= r.1 && (k > 0 ==> r.1 < k)
  {
    if k == 0 then (-1, 0)
    else
      var prev := RunningMax(v, k - 1);
      if v[k - 1] > prev.0 then (v[k - 1], k - 1) else prev
  }

  /** The index the argmax loop settles on. */
  function Peak(v: seq<int>): int
    requires |v| > 0
  {
    RunningMax(v, |v|).1
  }

  /** `idx` holds the first occurrence of the maximum of v[..k], and that maximum exceeds -1. */
  predicate IsFirstMax(v: seq<int>, k: int, idx: int)
    requires 0 <= k <= |v|
  {
    && 0 <= idx < k
    && v[idx] > -1
    && (forall i :: 0 <= i < k ==> v[i] <= v[idx])
    && (forall i :: 0 <= i < idx ==> v[i] < v[idx])
  }

  /** The running maximum finds the first index of the largest response when some response
      exceeds -1; otherwise it is still (-1, 0). */
  lemma {:induction false} RunningMaxIsFirstMax(v: seq<int>, k: nat)
    requires k <= |v|
    ensures (exists i :: 0 <= i < k && v[i] > -1) ==>
              IsFirstMax(v, k, RunningMax(v, k).1) && RunningMax(v, k).0 == v[RunningMax(v, k).1]
    ensures (forall i :: 0 <= i < k ==> v[i] <= -1) ==> RunningMax(v, k) == (-1, 0)
  {
    if k > 0 {
      RunningMaxIsFirstMax(v, k - 1);
      var prev := RunningMax(v, k - 1);
      if exists i :: 0 <= i < k - 1 && v[i] > -1 {
        assert IsFirstMax(v, k - 1, prev.1) && prev.0 == v[prev.1];
        if v[k - 1] > prev.0 {
          assert RunningMax(v, k) == (v[k - 1], k - 1);
        } else {
          assert RunningMax(v, k) == prev;
        }
      } else {
        assert prev == (-1, 0);
      }
    }
  }

  /** The argmax loop over `sobelValues`. */
  method PeakIndex(sobelValues: array<int>) returns (maxIntensityIndex: int)
    requires sobelValues.Length > 0
    ensures maxIntensityIndex == Peak(sobelValues[..])
    ensures (exists i :: 0 <= i < sobelValues.Length && sobelValues[i] > -1) ==>
              IsFirstMax(sobelValues[..], sobelValues.Length, maxIntensityIndex)
    ensures (forall i :: 0 <= i < sobelValues.Length ==> sobelValues[i] <= -1) ==> maxIntensityIndex == 0
  {
    var maxIntensity := -1;
    maxIntensityIndex := 0;
    for n := 0 to sobelValues.Length
      invariant (maxIntensity, maxIntensityIndex) == RunningMax(sobelValues[..], n)
    {
      if sobelValues[n] > maxIntensity {
        maxIntensity := sobelValues[n];
        maxIntensityIndex := n;
      }
    }
    assert sobelValues[..] == sobelValues[..sobelValues.Length];
    RunningMaxIsFirstMax(sobelValues[..], sobelValues.Length);
  }

  // ---------------------------------------------------------------------
  // Parabola through the peak
  // ---------------------------------------------------------------------

  /** The responses before, at and after the peak. */
  datatype Neighbours = Neighbours(y0: int, y1: int, y2: int)

  /** y0 and y2 fall back to 0 at the first index and at the last one (index L - 3 of the L - 2
      responses). */
  function PeakNeighbours(v: seq<int>, idx: int): (y: Neighbours)
    requires 0 <= idx < |v|
    ensures y.y1 == v[idx]
    ensures y.y0 == (if idx == 0 then 0 else v[idx - 1])
    ensures y.y2 == (if idx == |v| - 1 then 0 else v[idx + 1])
  {
    Neighbours(if idx <= 0 then 0 else v[idx - 1], v[idx], if idx >= |v| - 1 then 0 else v[idx + 1])
  }

  /** The denominator 4 y1 - 2 y0 - 2 y2. */
  function Curvature(y: Neighbours): int {
    4 * y.y1 - 2 * y.y0 - 2 * y.y2
  }

  /** The outcome of a double division. */
  datatype Quotient = Finite(value: real) | PosInf | NegInf | NaN

  /** IEEE 754 division where the divisor, when zero, is +0 (a difference of equal integers). */
  function IeeeDivide(num: real, den: real): (q: Quotient)
    ensures den != 0.0 ==> q == Finite(num / den)
    ensures den == 0.0 ==> (q == NaN <==> num == 0.0)
    ensures den == 0.0 && num > 0.0 ==> q == PosInf
    ensures den == 0.0 && num < 0.0 ==> q == NegInf
  {
    if den != 0.0 then Finite(num / den)
    else if num > 0.0 then PosInf
    else if num < 0.0 then NegInf
    else NaN
  }

  /** `pos` as written: the IEEE quotient; the sample is dropped only when it is NaN. */
  function ParabolaOffsetAsWritten(y: Neighbours): Quotient {
    IeeeDivide((y.y2 - y.y0) as real, Curvature(y) as real)
  }

  /** The vertex of the parabola through (-1, y0), (0, y1), (1, y2), or None when the three
      points are collinear (no vertex); the sample is dropped then. */
  function SubpixelOffset(y: Neighbours): (pos: Option<real>)
    ensures pos.None? <==> Curvature(y) == 0
    ensures pos.Some? ==> (y.y0 + y.y2 - 2 * y.y1) as real * pos.value + (y.y2 - y.y0) as real / 2.0 == 0.0
  {
    if Curvature(y) == 0 then None else Some((y.y2 - y.y0) as real / Curvature(y) as real)
  }

  /** At a peak that dominates both neighbours the vertex lies within half a row of it. */
  lemma OffsetWithinHalfRow(y: Neighbours)
    requires y.y0 <= y.y1 && y.y2 <= y.y1
    ensures SubpixelOffset(y).Some? ==> -1.0 / 2.0 <= SubpixelOffset(y).value <= 1.0 / 2.0
  {
    if Curvature(y) != 0 {
      var num := (y.y2 - y.y0) as real;
      var den := Curvature(y) as real;
      assert den > 0.0;
      assert -den / 2.0 <= num <= den / 2.0;
      assert num / den <= (den / 2.0) / den;
      assert (-den / 2.0) / den <= num / den;
    }
  }

  /** When some response exceeds -1 the peak dominates its neighbours (the zero fallbacks
      included), so the refinement offset is within half a row. */
  lemma PeakOffsetWithinHalfRow(v: seq<int>)
    requires |v| > 0 && exists i :: 0 <= i < |v| && v[i] > -1
    ensures var y := PeakNeighbours(v, Peak(v));
            y.y0 <= y.y1 && y.y2 <= y.y1
    ensures var pos := SubpixelOffset(PeakNeighbours(v, Peak(v)));
            pos.Some? ==> -1.0 / 2.0 <= pos.value <= 1.0 / 2.0
  {
    RunningMaxIsFirstMax(v, |v|);
    OffsetWithinHalfRow(PeakNeighbours(v, Peak(v)));
  }

  /** With a peak above -1 the as-written NaN test and the corrected test agree: a zero
      denominator there forces y0 == y1 == y2 and hence a zero numerator. */
  lemma AsWrittenAgreesAtRealPeak(v: seq<int>)
    requires |v| > 0 && exists i :: 0 <= i < |v| && v[i] > -1
    ensures var y := PeakNeighbours(v, Peak(v));
            ParabolaOffsetAsWritten(y) == (match SubpixelOffset(y) case None => NaN case Some(x) => Finite(x))
  {
    PeakOffsetWithinHalfRow(v);
  }

  // ---------------------------------------------------------------------
  // The edge point
  // ---------------------------------------------------------------------

  /** The edge point as written: the sample point moved across the edge by
      (maxIntensityIndex - (stripeLength >> 1) + pos) strip steps. */
  function EdgeCenterAsWritten(p: IntPoint, st: MyStrip, idx: int, pos: real): Point {
    var shift := (idx - st.stripeLength / 2) as real + pos;
    Point(p.x as real + shift * st.stripeVecY.x, p.y as real + shift * st.stripeVecY.y)
  }

  /** The edge point at the strip row the peak response belongs to: response idx is centred on
      row idx + 1, which is n = idx + 1 - nStop steps across the edge. */
  function EdgeCenter(p: IntPoint, st: MyStrip, idx: int, pos: real): Point {
    var shift := (idx + 1 - st.stripeLength / 2) as real + pos;
    Point(p.x as real + shift * st.stripeVecY.x, p.y as real + shift * st.stripeVecY.y)
  }

  /** With a zero offset the corrected edge point is the centre-column sample of the row the
      peak response is centred on, and the as-written one is the sample of the row before it. */
  lemma EdgeCenterIsPeakRow(p: IntPoint, st: MyStrip, idx: int)
    requires WellFormedStrip(st)
    ensures EdgeCenter(p, st, idx, 0.0) == StripPoint(p, st, 0, (idx + 1) - st.nStop)
    ensures EdgeCenterAsWritten(p, st, idx, 0.0) == StripPoint(p, st, 0, idx - st.nStop)
  {
    ShiftedPointIsStripPoint(p, st, (idx + 1 - st.stripeLength / 2) as real + 0.0, (idx + 1) - st.nStop);
    ShiftedPointIsStripPoint(p, st, (idx - st.stripeLength / 2) as real + 0.0, idx - st.nStop);
  }

  /** Moving `p` by `shift` strip steps across the edge, for a whole number `n` of steps, lands
      on the centre-column cell of row `n`. */
  lemma ShiftedPointIsStripPoint(p: IntPoint, st: MyStrip, shift: real, n: int)
    requires shift == n as real
    ensures Point(p.x as real + shift * st.stripeVecY.x, p.y as real + shift * st.stripeVecY.y)
            == StripPoint(p, st, 0, n)
  {
    var vx, vy := st.stripeVecX, st.stripeVecY;
    calc {
      StripPoint(p, st, 0, n);
      Point(p.x as real + 0 as real * vx.x + n as real * vy.x, p.y as real + 0 as real * vx.y + n as real * vy.y);
      { assert 0 as real * vx.x == 0.0 && 0 as real * vx.y == 0.0; }
      Point(p.x as real + n as real * vy.x, p.y as real + n as real * vy.y);
      Point(p.x as real + shift * vy.x, p.y as real + shift * vy.y);
    }
  }

  /** A written `edgePointCenters` slot: a point, or the non-finite point an infinite offset
      produces (its coordinates are infinite or NaN, which `real` cannot hold). */
  datatype EdgePoint = Refined(point: Point) | NonFinite

  /** The refined edge point of one sample as the tracker computes it: None when `pos` is NaN
      and the sample is skipped; otherwise the sample point moved by
      maxIntensityIndex - (stripeLength >> 1) + pos strip steps. */
  function SampleAt(img: GrayImage, p: IntPoint, st: MyStrip): Option<EdgePoint>
    requires img.Valid() && WellFormedStrip(st)
  {
    var v := SobelValues(StripeValues(img, p, st), st.stripeLength);
    var idx := Peak(v);
    var pos := ParabolaOffsetAsWritten(PeakNeighbours(v, idx));
    if pos == NaN then None
    else if pos.Finite? then Some(Refined(EdgeCenterAsWritten(p, st, idx, pos.value)))
    else Some(NonFinite)
  }

  /** The same sample with both corrections of the findings below: dropped exactly when the
      parabola has no vertex, and moved to the row the peak response is centred on. */
  function CorrectedSampleAt(img: GrayImage, p: IntPoint, st: MyStrip): Option<Point>
    requires img.Valid() && WellFormedStrip(st)
  {
    var v := SobelValues(StripeValues(img, p, st), st.stripeLength);
    var idx := Peak(v);
    match SubpixelOffset(PeakNeighbours(v, idx))
    case None => None
    case Some(pos) => Some(EdgeCenter(p, st, idx, pos))
  }

  /** Where some Sobel response exceeds -1, the tracker's sample and the corrected one are
      dropped together, and a kept point lies exactly one `stripeVecY` step before the
      corrected point. */
  lemma SampleAtAgainstCorrected(img: GrayImage, p: IntPoint, st: MyStrip)
    requires img.Valid() && WellFormedStrip(st)
    requires var v := SobelValues(StripeValues(img, p, st), st.stripeLength);
             exists i :: 0 <= i < |v| && v[i] > -1
    ensures SampleAt(img, p, st).None? <==> CorrectedSampleAt(img, p, st).None?
    ensures SampleAt(img, p, st).Some? ==>
              SampleAt(img, p, st).value.Refined?
              && Plus(SampleAt(img, p, st).value.point, st.stripeVecY) == CorrectedSampleAt(img, p, st).value
  {
    var v := SobelValues(StripeValues(img, p, st), st.stripeLength);
    var idx := Peak(v);
    var y := PeakNeighbours(v, idx);
    AsWrittenAgreesAtRealPeak(v);
    match SubpixelOffset(y)
    case None =>
      assert ParabolaOffsetAsWritten(y) == NaN;
    case Some(pos) =>
      assert ParabolaOffsetAsWritten(y) == Finite(pos);
      OneRowApart(p, st, idx, pos);
  }

  /** The tracker's edge point plus one strip step is the corrected edge point. */
  lemma OneRowApart(p: IntPoint, st: MyStrip, idx: int, pos: real)
    ensures Plus(EdgeCenterAsWritten(p, st, idx, pos), st.stripeVecY) == EdgeCenter(p, st, idx, pos)
  {
  }

  // ---------------------------------------------------------------------
  // One edge
  // ---------------------------------------------------------------------

  /** The step between consecutive sample positions: a seventh of the edge. */
  function EdgeStep(a: IntPoint, b: IntPoint): Point {
    Point((b.x - a.x) as real / 7.0, (b.y - a.y) as real / 7.0)
  }

  /** Sample position j, truncated to whole pixels. */
  function SamplePosition(a: IntPoint, d: Point, j: int): IntPoint {
    IntPoint(TruncToInt(a.x as real + j as real * d.x), TruncToInt(a.y as real + j as real * d.y))
  }

  /** The refined point of sample j (1..6) of the edge from `a` to `b`. */
  function EdgeSample(img: GrayImage, a: IntPoint, b: IntPoint, st: MyStrip, j: int): Option<EdgePoint>
    requires img.Valid() && WellFormedStrip(st)
  {
    SampleAt(img, SamplePosition(a, EdgeStep(a, b), j), st)
  }

  /** `edgePointCenters` after the sample loop: slot j - 1 holds the refined point of sample
      j = 1..6, or None where that sample was dropped and the slot left unwritten. */
  function EdgeSamples(img: GrayImage, a: IntPoint, b: IntPoint, st: MyStrip): (r: seq<Option<EdgePoint>>)
    requires img.Valid() && WellFormedStrip(st)
    ensures |r| == 6
    ensures forall i :: 0 <= i < 6 ==> r[i] == SampleAt(img, SamplePosition(a, EdgeStep(a, b), i + 1), st)
  {
    seq(6, i => EdgeSample(img, a, b, st, i + 1))
  }

  /** The per-edge part of the candidate loop: the strip for the edge from `a` to `b`, then the
      six samples, each refined in the one strip buffer. */
  method RefineEdge(img: GrayImage, a: IntPoint, b: IntPoint, sqrt: real -> real)
    returns (st: MyStrip, edgePointCenters: array<Option<EdgePoint>>)
    requires img.Valid()
    requires sqrt(SquaredLength(EdgeStep(a, b).x, EdgeStep(a, b).y)) > 0.0
    ensures st == StripFor(EdgeStep(a, b).x, EdgeStep(a, b).y, sqrt(SquaredLength(EdgeStep(a, b).x, EdgeStep(a, b).y)))
    ensures fresh(edgePointCenters)
    ensures edgePointCenters[..] == EdgeSamples(img, a, b, st)
  {
    var d := EdgeStep(a, b);
    var imagePixelStripe;
    st, imagePixelStripe := CalculateStripe(d.x, d.y, sqrt);
    edgePointCenters := SampleEdge(img, a, b, st, imagePixelStripe);
    SlotsAreEdgeSamples(img, a, b, st, edgePointCenters[..]);
  }

  /** Six slots that hold the refined points of samples 1..6 are `EdgeSamples`. */
  lemma SlotsAreEdgeSamples(img: GrayImage, a: IntPoint, b: IntPoint, st: MyStrip, c: seq<Option<EdgePoint>>)
    requires img.Valid() && WellFormedStrip(st)
    requires |c| == 6 && forall i :: 0 <= i < 6 ==> c[i] == EdgeSample(img, a, b, st, i + 1)
    ensures c == EdgeSamples(img, a, b, st)
  {
  }

  /** The loop over the six sample positions j = 1..6 of one edge. */
  method SampleEdge(img: GrayImage, a: IntPoint, b: IntPoint, st: MyStrip, imagePixelStripe: array<Byte>)
    returns (edgePointCenters: array<Option<EdgePoint>>)
    requires img.Valid() && WellFormedStrip(st)
    requires imagePixelStripe.Length == StripeWidth * st.stripeLength
    modifies imagePixelStripe
    ensures fresh(edgePointCenters) && edgePointCenters.Length == 6
    ensures forall i :: 0 <= i < 6 ==> edgePointCenters[i] == EdgeSample(img, a, b, st, i + 1)
  {
    var d := EdgeStep(a, b);
    edgePointCenters := new Option<EdgePoint>[6](_ => None);
    for j := 1 to 7
      invariant forall i :: 0 <= i < j - 1 ==> edgePointCenters[i] == EdgeSample(img, a, b, st, i + 1)
      invariant forall i :: j - 1 <= i < 6 ==> edgePointCenters[i] == None
    {
      RefineSampleAt(img, a, d, j, st, imagePixelStripe, edgePointCenters);
    }
  }

  /** Iteration j of the sample loop: the position `a + j * d` truncated to whole pixels, its
      refined sample, and the write of that sample to slot j - 1. A dropped sample skips the
      write, so the slot, unwritten until this iteration, stays None. */
  method RefineSampleAt(img: GrayImage, a: IntPoint, d: Point, j: int, st: MyStrip, imagePixelStripe: array<Byte>,
                        edgePointCenters: array<Option<EdgePoint>>)
    requires img.Valid() && WellFormedStrip(st)
    requires imagePixelStripe.Length == StripeWidth * st.stripeLength
    requires 1 <= j <= edgePointCenters.Length && edgePointCenters[j - 1] == None
    modifies imagePixelStripe, edgePointCenters
    ensures edgePointCenters[..] == old(edgePointCenters[..])[j - 1 := SampleAt(img, SamplePosition(a, d, j), st)]
  {
    var p := SamplePosition(a, d, j);
    var edgeCenter := RefineSample(img, p, st, imagePixelStripe);
    if edgeCenter.Some? {
      edgePointCenters[j - 1] := edgeCenter;
    }
  }

  /** One sample of the loop: fill the strip around `p`, run the Sobel pass, find the peak and
      refine it; None where the sample is skipped. */
  method RefineSample(img: GrayImage, p: IntPoint, st: MyStrip, imagePixelStripe: array<Byte>)
    returns (edgeCenter: Option<EdgePoint>)
    requires img.Valid() && WellFormedStrip(st)
    requires imagePixelStripe.Length == StripeWidth * st.stripeLength
    modifies imagePixelStripe
    ensures edgeCenter == SampleAt(img, p, st)
  {
    FillStripe(img, p, st, imagePixelStripe);
    var sobelValues := SobelProfile(imagePixelStripe, st.stripeLength);
    var maxIntensityIndex := PeakIndex(sobelValues);
    var y := PeakNeighbours(sobelValues[..], maxIntensityIndex);
    var pos := ParabolaOffsetAsWritten(y);
    if pos == NaN {
      edgeCenter := None;
    } else if pos.Finite? {
      edgeCenter := Some(Refined(EdgeCenterAsWritten(p, st, maxIntensityIndex, pos.value)));
    } else {
      edgeCenter := Some(NonFinite);
    }
  }

  // ---------------------------------------------------------------------
  // The two discrepancies, on concrete strips
  // ---------------------------------------------------------------------

  /** A strip of five uniform rows. */
  function UniformRows(r0: Byte, r1: Byte, r2: Byte, r3: Byte, r4: Byte): seq<Byte> {
    [r0, r0, r0, r1, r1, r1, r2, r2, r2, r3, r3, r3, r4, r4, r4]
  }

  /** Rows 8, 7, 7, 5, 5 darken monotonically, so no response exceeds -1: the argmax stays at
      0 with neighbours (0, -4, -8), the denominator is 0 and the numerator -8. The as-written
      quotient is -infinity, which the NaN test lets through; the corrected offset drops it. */
  lemma InfiniteOffsetPassesNanTest()
    ensures SobelValues(UniformRows(8, 7, 7, 5, 5), 5) == [-4, -8, -8]
    ensures Peak([-4, -8, -8]) == 0
    ensures PeakNeighbours([-4, -8, -8], 0) == Neighbours(0, -4, -8)
    ensures ParabolaOffsetAsWritten(Neighbours(0, -4, -8)) == NegInf
    ensures SubpixelOffset(Neighbours(0, -4, -8)) == None
  {
    var s := UniformRows(8, 7, 7, 5, 5);
    assert SobelAt(s, 1) == -4 && SobelAt(s, 2) == -8 && SobelAt(s, 3) == -8;
    assert RunningMax([-4, -8, -8], 1) == (-1, 0);
  }

  /** Rows 0, 0, 128, 255, 255: the step is centred on the middle row (n = 0, the sample point
      itself). The peak response is index 1, which belongs to that row, but the as-written shift
      is 1 - 2 + pos = -1 - 1/510 strip steps, while the corrected one is -1/510. */
  lemma EdgeShiftOffByOneRow()
    ensures SobelValues(UniformRows(0, 0, 128, 255, 255), 5) == [512, 1020, 508]
    ensures Peak([512, 1020, 508]) == 1
    ensures SubpixelOffset(PeakNeighbours([512, 1020, 508], 1)) == Some(-1.0 / 510.0)
    ensures (1 - 5 / 2) as real + -1.0 / 510.0 == -511.0 / 510.0
    ensures (1 + 1 - 5 / 2) as real + -1.0 / 510.0 == -1.0 / 510.0
  {
    var s := UniformRows(0, 0, 128, 255, 255);
    assert SobelAt(s, 1) == 512 && SobelAt(s, 2) == 1020 && SobelAt(s, 3) == 508;
    assert RunningMax([512, 1020, 508], 1) == (512, 0);
    assert RunningMax([512, 1020, 508], 2) == (1020, 1);
  }
}
