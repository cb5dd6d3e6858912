/**
 * Shared vocabulary of the marker tracker: optional values, 8-bit pixels,
 * OpenCV's point types, the 4x4 pose matrix, and the C++ library
 * behaviour the tracker relies on (casts to int, truncating division,
 * `cvRound`, `std::string::find`).
 */
module Basics {

  datatype Option<T> = None | Some(value: T)

  /** An `unsigned char` pixel intensity. */
  type Byte = x: int | 0 <= x < 256

  /** `cv::Point2f` / `cv::Point2d`, over the reals. */
  datatype Point = Point(x: real, y: real)

  /** `cv::Point`, integer pixel coordinates. */
  datatype IntPoint = IntPoint(x: int, y: int)

  /** A `float[16]` pose in row-major order, as filled by the pose estimator. */
  type Matrix4 = s: seq<real> | |s| == 16 witness seq(16, _ => 0.0)

  /** The four corners of a marker quadrilateral (`cv::Point2f[4]` or a vector of four). */
  type Quad = s: seq<Point> | |s| == 4 witness [Point(0.0, 0.0), Point(0.0, 0.0), Point(0.0, 0.0), Point(0.0, 0.0)]

  function AsReal(p: IntPoint): Point {
    Point(p.x as real, p.y as real)
  }

  /** The C++ conversion `(int)r` of a double: truncation toward zero. */
  function TruncToInt(r: real): (n: int)
    ensures 0.0 <= r ==> 0 <= n && n as real <= r < n as real + 1.0
    ensures r < 0.0 ==> n <= 0 && n as real - 1.0 < r <= n as real
  {
    if r >= 0.0 then r.Floor else -((-r).Floor)
  }

  /** `cvRound`, used when a `cv::Point2f` is converted to a `cv::Point`:
      round to the nearest integer, ties to the even one. */
  function RoundHalfEven(r: real): (n: int)
    ensures -1.0 / 2.0 <= r - n as real <= 1.0 / 2.0
    ensures r - n as real == 1.0 / 2.0 || n as real - r == 1.0 / 2.0 ==> n % 2 == 0
  {
    var f := r.Floor;
    var frac := r - f as real;
    if frac < 1.0 / 2.0 then f
    else if frac > 1.0 / 2.0 then f + 1
    else if f % 2 == 0 then f else f + 1
  }

  function RoundPoint(p: Point): IntPoint {
    IntPoint(RoundHalfEven(p.x), RoundHalfEven(p.y))
  }

  /** C++ integer `/`: the quotient truncated toward zero. */
  function TruncDiv(a: int, b: int): int
    requires b != 0
  {
    if a >= 0 then (if b > 0 then a / b else -(a / -b))
    else (if b > 0 then -((-a) / b) else (-a) / (-b))
  }

  /** C++ integer `%`: the remainder that goes with `TruncDiv`. */
  function TruncMod(a: int, b: int): int
    requires b != 0
  {
    a - TruncDiv(a, b) * b
  }

  /** The C++ division identity for the divisor 10, with a remainder that takes the sign of
      the dividend. */
  lemma TruncDivMod10(a: int)
    ensures a == TruncDiv(a, 10) * 10 + TruncMod(a, 10)
    ensures 0 <= a ==> 0 <= TruncMod(a, 10) < 10 && 0 <= TruncDiv(a, 10)
    ensures a < 0 ==> -10 < TruncMod(a, 10) <= 0 && TruncDiv(a, 10) <= 0
  {
    if a < 0 {
      assert -a == ((-a) / 10) * 10 + (-a) % 10;
      assert TruncMod(a, 10) == -((-a) % 10);
    }
  }

  /** A non-empty set of keys has an element. */
  lemma NonEmptyHasKey(s: set<int>)
    requires s != {}
    ensures exists id :: id in s
  {
    if forall id :: id !in s {
      assert false;
    }
  }

  /** `pat` occurs in `text` starting at position `i`. */
  predicate OccursAt(text: string, pat: string, i: int) {
    0 <= i && i + |pat| <= |text| && text[i..i + |pat|] == pat
  }

  /** `text.find(pat)`: the first position where `pat` occurs, or `None` for `npos`.
      As in C++, the empty pattern is found at position 0. */
  function Find(text: string, pat: string): (r: Option<nat>)
    ensures r.Some? ==> OccursAt(text, pat, r.value)
    ensures r.Some? ==> forall i :: 0 <= i < r.value ==> !OccursAt(text, pat, i)
    ensures r.None? ==> forall i :: !OccursAt(text, pat, i)
    decreases |text|
  {
    if |text| < |pat| then None
    else if text[..|pat|] == pat then Some(0)
    else
      var r := Find(text[1..], pat);
      assert forall i :: 0 <= i ==> (OccursAt(text[1..], pat, i) <==> OccursAt(text, pat, i + 1)) by {
        forall i | 0 <= i
          ensures OccursAt(text[1..], pat, i) <==> OccursAt(text, pat, i + 1)
        {
          if i + |pat| <= |text[1..]| {
            assert text[1..][i..i + |pat|] == text[i + 1..i + 1 + |pat|];
          }
        }
      }
      assert text[0..|pat|] == text[..|pat|];
      assert forall i :: 1 <= i ==> (OccursAt(text, pat, i) <==> OccursAt(text[1..], pat, i - 1));
      match r
      case None => None
      case Some(k) => Some(k + 1)
  }

  /** `text.find(pat) != std::string::npos`. */
  predicate Contains(text: string, pat: string) {
    Find(text, pat).Some?
  }
}
