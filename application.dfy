/**
 * The application loop around the tracker: after `track`, `drawLines` pairs up the detected
 * markers' centres and records every pair that spells a tango in the global
 * `monjiCombinations`; the renderers transpose each 4x4 pose for OpenGL and place a virtual
 * marker half-way between the two markers of a combination; at the end of the frame the
 * tracker's maps and the combinations are cleared.
 */
module Application {
  import opened Basics
  import opened MetaData
  import opened TrackerHelpers
  import opened Tracking

  // ---------------------------------------------------------------------
  // std::map iteration order
  // ---------------------------------------------------------------------

  predicate IsMinOf(m: int, s: set<int>) {
    m in s && forall k :: k in s ==> m <= k
  }

  /** A non-empty finite set of ids has a least element. */
  lemma {:induction false} MinExists(s: set<int>)
    requires s != {}
    ensures exists m :: IsMinOf(m, s)
    decreases |s|
  {
    NonEmptyHasKey(s);
    var x :| x in s;
    var rest := s - {x};
    assert forall k :: k in s ==> k == x || k in rest;
    if rest == {} {
      assert IsMinOf(x, s);
    } else {
      MinExists(rest);
      var y :| IsMinOf(y, rest);
      if x < y {
        assert IsMinOf(x, s);
      } else {
        assert IsMinOf(y, s);
      }
    }
  }

  /** The keys of a `std::map` in the order its iterators visit them: least first. */
  ghost function SortedKeys(s: set<int>): (r: seq<int>)
    ensures |r| == |s|
    ensures forall i :: 0 <= i < |r| ==> r[i] in s
    decreases |s|
  {
    if s == {} then []
    else
      MinExists(s);
      var m :| IsMinOf(m, s);
      [m] + SortedKeys(s - {m})
  }

  /** Visiting the least key first leaves the keys after it in order. */
  lemma SortedKeysStep(s: set<int>, m: int)
    requires IsMinOf(m, s)
    ensures SortedKeys(s) == [m] + SortedKeys(s - {m})
  {
    var r := SortedKeys(s);
    assert IsMinOf(r[0], s);
  }

  /** The iteration visits every key of the map, and nothing else. */
  lemma {:induction false} SortedKeysMembers(s: set<int>, k: int)
    ensures k in s <==> k in SortedKeys(s)
    decreases |s|
  {
    if s != {} {
      var r := SortedKeys(s);
      var m := r[0];
      assert IsMinOf(m, s);
      SortedKeysStep(s, m);
      SortedKeysMembers(s - {m}, k);
      assert k in r <==> k == m || k in SortedKeys(s - {m});
    }
  }

  /** The iteration visits the keys in strictly ascending order. */
  lemma {:induction false} SortedKeysAscending(s: set<int>)
    ensures var r := SortedKeys(s); forall i, j :: 0 <= i < j < |r| ==> r[i] < r[j]
    decreases |s|
  {
    if s != {} {
      var r := SortedKeys(s);
      var m := r[0];
      assert IsMinOf(m, s);
      SortedKeysStep(s, m);
      SortedKeysAscending(s - {m});
      var rest := SortedKeys(s - {m});
      forall i, j | 0 <= i < j < |r|
        ensures r[i] < r[j]
      {
        assert r[j] == rest[j - 1] && rest[j - 1] in s - {m};
        if i > 0 {
          assert r[i] == rest[i - 1];
        }
      }
    }
  }

  // ---------------------------------------------------------------------
  // drawLines
  // ---------------------------------------------------------------------

  lemma ConcatAssoc<T>(a: seq<T>, b: seq<T>, c: seq<T>)
    ensures a + b + c == a + (b + c)
  {
  }

  /** One more pair in the inner loop. */
  lemma RowStep(tangos: seq<Tango>, centers: seq<Center>, i: nat, j: nat,
                start: seq<Combination>, before: seq<Combination>, after: seq<Combination>)
    requires i < j < |centers|
    requires before == start + RowPairs(PairStep(tangos), centers, i, j)
    requires after == before + PairCombination(tangos, centers[i], centers[j])
    ensures after == start + RowPairs(PairStep(tangos), centers, i, j + 1)
  {
    var step := PairStep(tangos);
    assert RowPairs(step, centers, i, j + 1) == RowPairs(step, centers, i, j) + step(centers[i], centers[j]);
    ConcatAssoc(start, RowPairs(step, centers, i, j), step(centers[i], centers[j]));
  }

  /** One more row in the outer loop. */
  lemma RowsStep(tangos: seq<Tango>, centers: seq<Center>, i: nat,
                 start: seq<Combination>, before: seq<Combination>, after: seq<Combination>)
    requires i < |centers|
    requires before == start + RowsPairs(PairStep(tangos), centers, i)
    requires after == before + RowPairs(PairStep(tangos), centers, i, |centers|)
    ensures after == start + RowsPairs(PairStep(tangos), centers, i + 1)
  {
    var step := PairStep(tangos);
    ConcatAssoc(start, RowsPairs(step, centers, i), RowPairs(step, centers, i, |centers|));
  }

  /** One entry of the `centers` vector: a marker id and its centre as a `cv::Point`. */
  datatype Center = Center(id: int, pos: IntPoint)

  /** One entry of `monjiCombinations`: the left monji, the right monji and their tango. */
  datatype Combination = Combination(left: int, right: int, tango: int)

  /** The centre of every detected marker, by id (what `getDetectedMarkerCenter` returns). */
  function CenterMap(corners: map<int, Quad>): (m: map<int, Point>)
    ensures m.Keys == corners.Keys
  {
    map id | id in corners :: CenterOfCorners(corners[id])
  }

  /** The `centers` vector: the centre map in key order, each centre rounded to whole pixels. */
  ghost function CentersOf(centersMap: map<int, Point>): (cs: seq<Center>)
    ensures |cs| == |centersMap|
  {
    var keys := SortedKeys(centersMap.Keys);
    seq(|keys|, i requires 0 <= i < |keys| => Center(keys[i], RoundPoint(centersMap[keys[i]])))
  }

  /** Of two centres, the one `drawLines` puts on the left: `a` when it lies strictly further
      left, otherwise `b`. */
  function LeftOf(a: Center, b: Center): Center {
    if a.pos.x < b.pos.x then a else b
  }

  function RightOf(a: Center, b: Center): Center {
    if a.pos.x < b.pos.x then b else a
  }

  /** What one pair (a, b) = (centers[i], centers[j]) appends: the combination of its left and
      right monji when the dictionary has their tango, else nothing. */
  function PairCombination(tangos: seq<Tango>, a: Center, b: Center): seq<Combination> {
    var left, right := LeftOf(a, b), RightOf(a, b);
    var tangoId := GetTangoId(tangos, left.id, right.id);
    if tangoId != -1 then [Combination(left.id, right.id, tangoId)] else []
  }

  /** `PairCombination` for a fixed dictionary: what the loop body appends for one pair. */
  function PairStep(tangos: seq<Tango>): (Center, Center) -> seq<Combination> {
    (a: Center, b: Center) => PairCombination(tangos, a, b)
  }

  /** What the inner loop appends for the pairs (i, i + 1), ..., (i, j - 1), in order, when the
      body appends `step(centers[i], centers[k])` for pair (i, k). */
  function RowPairs(step: (Center, Center) -> seq<Combination>, centers: seq<Center>, i: nat, j: nat): seq<Combination>
    requires i < |centers| && j <= |centers|
    decreases j
  {
    if j <= i + 1 then []
    else RowPairs(step, centers, i, j - 1) + step(centers[i], centers[j - 1])
  }

  /** What the outer loop appends for the rows 0 .. n - 1, in order. */
  function RowsPairs(step: (Center, Center) -> seq<Combination>, centers: seq<Center>, n: nat): seq<Combination>
    requires n <= |centers|
  {
    if n == 0 then []
    else RowsPairs(step, centers, n - 1) + RowPairs(step, centers, n - 1, |centers|)
  }

  /** Everything one call of the pair loops of `drawLines` appends. */
  function Combinations(tangos: seq<Tango>, centers: seq<Center>): seq<Combination> {
    RowsPairs(PairStep(tangos), centers, |centers|)
  }

  /** `left` is never to the right of `right`; on equal x the later centre `b` is `left`; the two
      are the pair itself. */
  lemma LeftRightOrder(a: Center, b: Center)
    ensures LeftOf(a, b).pos.x <= RightOf(a, b).pos.x
    ensures a.pos.x < b.pos.x ==> LeftOf(a, b) == a && RightOf(a, b) == b
    ensures a.pos.x >= b.pos.x ==> LeftOf(a, b) == b && RightOf(a, b) == a
    ensures multiset{LeftOf(a, b), RightOf(a, b)} == multiset{a, b}
  {
  }

  /** The pair (centers[i], centers[k]), i < k, appends `c`. */
  predicate PairProduces(step: (Center, Center) -> seq<Combination>, centers: seq<Center>, i: int, k: int, c: Combination) {
    0 <= i < k < |centers| && c in step(centers[i], centers[k])
  }

  lemma {:induction false} RowMembership(step: (Center, Center) -> seq<Combination>, centers: seq<Center>, i: nat, j: nat,
                                         c: Combination)
    requires i < |centers| && j <= |centers|
    ensures c in RowPairs(step, centers, i, j) <==> exists k :: k < j && PairProduces(step, centers, i, k, c)
    decreases j
  {
    if j > i + 1 {
      RowMembership(step, centers, i, j - 1, c);
      if PairProduces(step, centers, i, j - 1, c) {
        assert c in RowPairs(step, centers, i, j);
      }
    } else {
      assert forall k :: k < j ==> !PairProduces(step, centers, i, k, c);
    }
  }

  lemma {:induction false} RowsMembership(step: (Center, Center) -> seq<Combination>, centers: seq<Center>, n: nat,
                                          c: Combination)
    requires n <= |centers|
    ensures c in RowsPairs(step, centers, n) <==> exists i, k :: i < n && PairProduces(step, centers, i, k, c)
  {
    if n > 0 {
      var i := n - 1;
      var before, row := RowsPairs(step, centers, i), RowPairs(step, centers, i, |centers|);
      assert RowsPairs(step, centers, n) == before + row;
      RowsMembership(step, centers, i, c);
      RowMembership(step, centers, i, |centers|, c);
      if c in before {
        var i', k :| i' < i && PairProduces(step, centers, i', k, c);
        assert c in RowsPairs(step, centers, n) && i' < n && PairProduces(step, centers, i', k, c);
      } else if c in row {
        var k :| k < |centers| && PairProduces(step, centers, i, k, c);
        assert c in RowsPairs(step, centers, n) && i < n && PairProduces(step, centers, i, k, c);
      } else {
        assert c !in RowsPairs(step, centers, n);
        forall i', k | i' < n
          ensures !PairProduces(step, centers, i', k, c)
        {
          if i' == i {
            assert !(k < |centers| && PairProduces(step, centers, i, k, c));
          }
        }
      }
    }
  }

  /** The pair loops examine every unordered pair i < j of centres: a combination is recorded
      exactly when some pair produces it. */
  lemma CombinationsArePairs(tangos: seq<Tango>, centers: seq<Center>, c: Combination)
    ensures c in Combinations(tangos, centers)
            <==> exists i, j :: 0 <= i < j < |centers| && c in PairCombination(tangos, centers[i], centers[j])
  {
    RowsMembership(PairStep(tangos), centers, |centers|, c);
    if c in Combinations(tangos, centers) {
      var i, j :| i < |centers| && PairProduces(PairStep(tangos), centers, i, j, c);
      assert c in PairCombination(tangos, centers[i], centers[j]);
    } else {
      forall i, j | 0 <= i < j < |centers|
        ensures c !in PairCombination(tangos, centers[i], centers[j])
      {
        assert !PairProduces(PairStep(tangos), centers, i, j, c);
      }
    }
  }

  /** Every recorded combination names two of the centres, the left one not to the right of the
      other, and its tango is the two-digit code of the pair. */
  lemma CombinationFacts(tangos: seq<Tango>, centers: seq<Center>, c: Combination)
    requires c in Combinations(tangos, centers)
    ensures exists i, j :: 0 <= i < j < |centers| && {c.left, c.right} == {centers[i].id, centers[j].id}
    ensures c.tango == 10 * c.left + c.right && Encodes(c.tango, c.left, c.right)
  {
    CombinationsArePairs(tangos, centers, c);
    var i, j :| 0 <= i < j < |centers| && c in PairCombination(tangos, centers[i], centers[j]);
    var left, right := LeftOf(centers[i], centers[j]), RightOf(centers[i], centers[j]);
    assert c == Combination(left.id, right.id, GetTangoId(tangos, left.id, right.id));
    TangoIdIsPairCode(tangos, left.id, right.id);
  }

  /** Fewer than two centres make no pair. */
  lemma NoPairsBelowTwo(tangos: seq<Tango>, centers: seq<Center>)
    requires |centers| < 2
    ensures Combinations(tangos, centers) == []
  {
    if |centers| == 1 {
      assert RowsPairs(PairStep(tangos), centers, 0) == [];
      assert RowPairs(PairStep(tangos), centers, 0, 1) == [];
    }
  }

  /** What `drawLines` appends for a centre map. */
  ghost function DrawnCombinations(tangos: seq<Tango>, centersMap: map<int, Point>): seq<Combination> {
    if |centersMap| >= 2 then Combinations(tangos, CentersOf(centersMap)) else []
  }

  /** The copy of the centre map into the `centers` vector, in iteration (key) order. */
  method CentersInKeyOrder(centersMap: map<int, Point>) returns (centers: seq<Center>)
    ensures centers == CentersOf(centersMap)
  {
    ghost var keys := SortedKeys(centersMap.Keys);
    centers := [];
    var remaining := centersMap.Keys;
    while remaining != {}
      invariant remaining <= centersMap.Keys
      invariant |centers| + |remaining| == |keys|
      invariant keys[|centers|..] == SortedKeys(remaining)
      invariant forall i :: 0 <= i < |centers| ==> centers[i] == Center(keys[i], RoundPoint(centersMap[keys[i]]))
      decreases |remaining|
    {
      MinExists(remaining);
      var id :| IsMinOf(id, remaining);
      SortedKeysStep(remaining, id);
      centers := centers + [Center(id, RoundPoint(centersMap[id]))];
      remaining := remaining - {id};
    }
    assert |centers| == |keys|;
  }

  /** The global state of the application and the per-frame steps that change it. */
  class App {
    /** The global `monjiCombinations`. */
    var monjiCombinations: seq<Combination>

    constructor()
      ensures monjiCombinations == []
    {
      monjiCombinations := [];
    }

    /** The body of the inner pair loop: order the two centres left to right and append their
        combination when the dictionary has their tango. */
    method AppendPair(tangos: seq<Tango>, a: Center, b: Center)
      modifies this
      ensures monjiCombinations == old(monjiCombinations) + PairCombination(tangos, a, b)
    {
      var pointA := a.pos;
      var pointB := b.pos;
      var left, right;
      if pointA.x < pointB.x {
        left := a;
        right := b;
      } else {
        left := b;
        right := a;
      }
      var tangoId := GetTangoId(tangos, left.id, right.id);
      if tangoId != -1 {
        monjiCombinations := monjiCombinations + [Combination(left.id, right.id, tangoId)];
      }
    }

    /** The inner pair loop of `drawLines`: pairs (i, i + 1), ..., (i, |centers| - 1). */
    method AppendRow(tangos: seq<Tango>, centers: seq<Center>, i: nat)
      requires i < |centers|
      modifies this
      ensures monjiCombinations == old(monjiCombinations) + RowPairs(PairStep(tangos), centers, i, |centers|)
    {
      var j := i + 1;
      while j < |centers|
        invariant i + 1 <= j <= |centers|
        invariant monjiCombinations == old(monjiCombinations) + RowPairs(PairStep(tangos), centers, i, j)
      {
        ghost var before := monjiCombinations;
        AppendPair(tangos, centers[i], centers[j]);
        RowStep(tangos, centers, i, j, old(monjiCombinations), before, monjiCombinations);
        j := j + 1;
      }
    }

    /** The nested pair loops of `drawLines` over a `centers` vector. */
    method AppendCombinations(tangos: seq<Tango>, centers: seq<Center>)
      modifies this
      ensures monjiCombinations == old(monjiCombinations) + Combinations(tangos, centers)
    {
      var i := 0;
      while i < |centers|
        invariant i <= |centers|
        invariant monjiCombinations == old(monjiCombinations) + RowsPairs(PairStep(tangos), centers, i)
      {
        ghost var before := monjiCombinations;
        AppendRow(tangos, centers, i);
        RowsStep(tangos, centers, i, old(monjiCombinations), before, monjiCombinations);
        i := i + 1;
      }
    }

    /** `drawLines`: nothing happens below two detected markers; otherwise every pair of centres
        that spells a tango is appended, and nothing else changes. */
    method DrawLines<M>(tracker: Tracker, meta: MetaManager<M>)
      modifies this
      ensures monjiCombinations
              == old(monjiCombinations) + DrawnCombinations(meta.tangos, CenterMap(tracker.detectedMarkerCorners))
    {
      var centersMap := tracker.GetDetectedMarkerCenter();
      ghost var expected := CenterMap(tracker.detectedMarkerCorners);
      assert forall id :: id in centersMap ==> centersMap[id] == expected[id];
      assert centersMap == expected;
      if |centersMap| >= 2 {
        var centers := CentersInKeyOrder(centersMap);
        AppendCombinations(meta.tangos, centers);
      }
    }

    /** One pass of the main loop: track, draw the combination lines, render, then clear the
        tracker's maps and the combinations. Returns what `drawLines` recorded this frame. */
    method Frame<M>(tracker: Tracker, meta: MetaManager<M>, img: GrayImage, contours: seq<seq<IntPoint>>,
                    vision: Vision)
      returns (drawn: seq<Combination>)
      requires img.Valid()
      requires forall k :: 0 <= k < |contours| ==> Refinable(img, contours[k], vision)
      requires monjiCombinations == []
      modifies this, tracker
      ensures drawn == DrawnCombinations(meta.tangos, CenterMap(
                Recorded(old(tracker.detectedMarkerCorners), Outcomes(img, tracker.objs, contours, vision, |contours|),
                         CornersOfDetection)))
      ensures tracker.detectedMarkers == map[] && tracker.detectedMarkerCorners == map[]
      ensures monjiCombinations == []
    {
      tracker.Track(img, contours, vision);
      DrawLines(tracker, meta);
      drawn := monjiCombinations;
      tracker.CleanDetectedMarkers();
      monjiCombinations := [];
    }
  }

  // ---------------------------------------------------------------------
  // Pose transposition
  // ---------------------------------------------------------------------

  /** The transpose of a row-major 4x4 matrix: row x of the result is column x of `m`. */
  function Transposed(m: Matrix4): (t: Matrix4)
    ensures forall x, y :: 0 <= x < 4 && 0 <= y < 4 ==> t[x * 4 + y] == m[y * 4 + x]
  {
    [m[0], m[4], m[8], m[12],
     m[1], m[5], m[9], m[13],
     m[2], m[6], m[10], m[14],
     m[3], m[7], m[11], m[15]]
  }

  /** Transposing twice gives the pose back. */
  lemma TransposeInvolution(m: Matrix4)
    ensures Transposed(Transposed(m)) == m
  {
    var t := Transposed(m);
    assert Transposed(t) == [t[0], t[4], t[8], t[12], t[1], t[5], t[9], t[13],
                             t[2], t[6], t[10], t[14], t[3], t[7], t[11], t[15]];
  }

  /** A 16-entry sequence whose entry (x, y) is entry (y, x) of `m` is the transpose of `m`. */
  lemma TransposedByEntries(s: seq<real>, m: Matrix4)
    requires |s| == 16
    requires forall x, y :: 0 <= x < 4 && 0 <= y < 4 ==> s[x * 4 + y] == m[y * 4 + x]
    ensures s == Transposed(m)
  {
    forall k | 0 <= k < 16
      ensures s[k] == Transposed(m)[k]
    {
      var x, y := k / 4, k % 4;
      assert k == x * 4 + y;
      assert Transposed(m)[x * 4 + y] == m[y * 4 + x];
    }
  }

  /** The transpose loops of `renderObjs` and `renderCombis`: entry (x, y) of
      `resultTransposedMatrix` is entry (y, x) of the pose, so the buffer holds `Transposed`
      (`TransposedByEntries`). */
  method Transpose(resultMatrix: Matrix4) returns (resultTransposedMatrix: array<real>)
    ensures resultTransposedMatrix.Length == 16
    ensures forall x, y :: 0 <= x < 4 && 0 <= y < 4 ==> resultTransposedMatrix[x * 4 + y] == resultMatrix[y * 4 + x]
  {
    resultTransposedMatrix := new real[16];
    for x := 0 to 4
      invariant forall a, b :: 0 <= a < x && 0 <= b < 4 ==> resultTransposedMatrix[a * 4 + b] == resultMatrix[b * 4 + a]
    {
      for y := 0 to 4
        invariant forall a, b :: 0 <= a < x && 0 <= b < 4 ==> resultTransposedMatrix[a * 4 + b] == resultMatrix[b * 4 + a]
        invariant forall b :: 0 <= b < y ==> resultTransposedMatrix[x * 4 + b] == resultMatrix[b * 4 + x]
      {
        resultTransposedMatrix[x * 4 + y] := resultMatrix[y * 4 + x];
      }
    }
  }

  // ---------------------------------------------------------------------
  // The virtual marker of a combination
  // ---------------------------------------------------------------------

  /** Half the way from the first centre to the second. */
  function MidpointOffset(c1: Point, c2: Point): Point {
    Half(Minus(c2, c1))
  }

  /** The loop that adds the offset to each of marker 1's corners. */
  method ShiftCorners(corners: Quad, offset: Point) returns (shifted: Quad)
    ensures shifted == Translated(corners, offset)
  {
    shifted := corners;
    for i := 0 to 4
      invariant |shifted| == 4
      invariant forall k :: 0 <= k < i ==> shifted[k] == Plus(corners[k], offset)
      invariant forall k :: i <= k < 4 ==> shifted[k] == corners[k]
    {
      shifted := shifted[i := Plus(shifted[i], offset)];
    }
  }

  /** The shifted corners of marker 1 are centred half-way between the two markers. */
  lemma VirtualMarkerAtMidpoint(q1: Quad, q2: Quad)
    ensures var c1, c2 := CenterOfCorners(q1), CenterOfCorners(q2);
            CenterOfCorners(Translated(q1, MidpointOffset(c1, c2))) == Half(Plus(c1, c2))
  {
    var c1, c2 := CenterOfCorners(q1), CenterOfCorners(q2);
    CenterFollowsTranslation(q1, MidpointOffset(c1, c2));
  }

  /** The virtual marker of one combination in `renderCombis`: marker 1's corners moved by half
      the distance between the two centres; None where `map::at` throws `out_of_range`. */
  method VirtualMarker(tracker: Tracker, combi: Combination) returns (r: Option<Quad>)
    ensures r.Some? <==> combi.left in tracker.detectedMarkerCorners && combi.right in tracker.detectedMarkerCorners
    ensures r.Some? ==>
              var c1 := CenterOfCorners(tracker.detectedMarkerCorners[combi.left]);
              var c2 := CenterOfCorners(tracker.detectedMarkerCorners[combi.right]);
              CenterOfCorners(r.value) == Half(Plus(c1, c2))
              && r.value == Translated(tracker.detectedMarkerCorners[combi.left], MidpointOffset(c1, c2))
  {
    var m1MarkerCorners := tracker.GetMarkerCornersById(combi.left);
    var m2MarkerCorners := tracker.GetMarkerCornersById(combi.right);
    if m1MarkerCorners.None? || m2MarkerCorners.None? {
      return None;
    }
    var m1Center := tracker.GetMarkerCenterById(combi.left).value;
    var m2Center := tracker.GetMarkerCenterById(combi.right).value;
    var offset := Half(Minus(m2Center, m1Center));
    var shifted := ShiftCorners(m1MarkerCorners.value, offset);
    VirtualMarkerAtMidpoint(m1MarkerCorners.value, m2MarkerCorners.value);
    r := Some(shifted);
  }
}
