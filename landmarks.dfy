/**
 * Landmark geometry shared by every controller: the 21-point hand layout
 * reported by the hand detector, conversion of normalized coordinates to
 * pixels, and the squared-distance form of the Euclidean threshold tests.
 */
module Landmarks {

  datatype Option<T> = None | Some(value: T)

  /** A detector keypoint, in normalized image coordinates (x right, y down). */
  datatype Point = Point(x: real, y: real)

  /** A pixel position, as the scripts store it after `int(...)`. */
  type Pixel = (int, int)

  /** One detected hand: exactly 21 keypoints with fixed semantic indices. */
  type Hand = s: seq<Point> | |s| == 21 witness seq(21, _ => Point(0.0, 0.0))

  const WRIST: nat := 0
  const THUMB_MCP: nat := 2
  const THUMB_TIP: nat := 4
  const INDEX_MCP: nat := 5
  const INDEX_TIP: nat := 8
  const MIDDLE_MCP: nat := 9
  const MIDDLE_TIP: nat := 12
  const RING_MCP: nat := 13
  const RING_TIP: nat := 16
  const PINKY_MCP: nat := 17
  const PINKY_TIP: nat := 20

  /** Python's `int(r)` on a float: truncation toward zero. */
  function Trunc(r: real): (n: int)
    ensures 0.0 <= r ==> 0 <= n && n as real <= r < n as real + 1.0
    ensures r < 0.0 ==> n <= 0 && n as real - 1.0 < r <= n as real
  {
    if r >= 0.0 then r.Floor else -((-r).Floor)
  }

  /** `max(lo, min(hi, v))`, as the scripts clamp configuration and cursor values. */
  function Clamp(v: real, lo: real, hi: real): (r: real)
    requires lo <= hi
    ensures lo <= r <= hi
    ensures lo <= v <= hi ==> r == v
    ensures v < lo ==> r == lo
    ensures hi < v ==> r == hi
  {
    if hi < v then (if lo < hi then hi else lo) else if lo < v then v else lo
  }

  /** Squared Euclidean distance between two integer pixels. */
  function SquaredDistance(p: Pixel, q: Pixel): (d: int)
    ensures d >= 0
    ensures d == 0 <==> p == q
  {
    var dx := p.0 - q.0;
    var dy := p.1 - q.1;
    assert dx * dx >= 0 && dy * dy >= 0;
    assert dx != 0 ==> dx * dx > 0;
    assert dy != 0 ==> dy * dy > 0;
    dx * dx + dy * dy
  }

  lemma SquaredDistanceSymmetric(p: Pixel, q: Pixel)
    ensures SquaredDistance(p, q) == SquaredDistance(q, p)
  {
    assert (p.0 - q.0) * (p.0 - q.0) == (q.0 - p.0) * (q.0 - p.0);
    assert (p.1 - q.1) * (p.1 - q.1) == (q.1 - p.1) * (q.1 - p.1);
  }

  lemma ProductPositive(a: real, b: real)
    requires 0.0 < a && 0.0 < b
    ensures 0.0 < a * b
  {
  }

  lemma ProductNonnegative(a: real, b: real)
    requires 0.0 <= a && 0.0 <= b
    ensures 0.0 <= a * b
  {
  }

  /**
   * A Euclidean distance `d` (the square root of `sq`) is below a positive
   * threshold `k` exactly when `sq` is below `k * k`; this is what lets the
   * model compare squared distances where the scripts call `sqrt`/`hypot`.
   */
  lemma {:induction false} RootBelowThreshold(d: real, sq: real, k: real)
    requires 0.0 <= d && 0.0 < k && d * d == sq
    ensures d < k <==> sq < k * k
  {
    assert (k - d) * (k + d) == k * k - d * d;
    if d < k {
      ProductPositive(k - d, k + d);
    } else {
      ProductNonnegative(d - k, d + k);
      assert (d - k) * (d + k) == d * d - k * k;
    }
  }

  /**
   * Truncating a non-negative distance and comparing it with an integer
   * threshold (`int(hypot(...)) < k`) is the same as comparing the distance
   * itself with `k`.
   */
  lemma {:induction false} TruncatedBelowThreshold(d: real, k: int)
    requires 0.0 <= d
    ensures Trunc(d) < k <==> d < k as real
  {
    var n := Trunc(d);
    if n < k {
      assert n + 1 <= k;
      assert d < (n + 1) as real;
    } else {
      assert k as real <= n as real <= d;
    }
  }

  /** Left-to-right sum of reals, as `np.mean` adds the coordinates. */
  function SumReals(xs: seq<real>): real
    decreases |xs|
  {
    if xs == [] then 0.0 else SumReals(xs[..|xs| - 1]) + xs[|xs| - 1]
  }

  /** A sum of reals that each lie within `[lo, hi]` lies within `[n * lo, n * hi]` for `n` terms. */
  lemma {:induction false} SumRealsBounds(xs: seq<real>, lo: real, hi: real)
    requires forall i | 0 <= i < |xs| :: lo <= xs[i] <= hi
    ensures |xs| as real * lo <= SumReals(xs) <= |xs| as real * hi
    decreases |xs|
  {
    if xs != [] {
      SumRealsBounds(xs[..|xs| - 1], lo, hi);
    }
  }

  /** The x coordinates of the keypoints, in keypoint order. */
  function XCoords(hand: Hand): (xs: seq<real>)
    ensures |xs| == |hand| && forall i | 0 <= i < |hand| :: xs[i] == hand[i].x
  {
    seq(|hand|, i requires 0 <= i < |hand| => hand[i].x)
  }

  /** The y coordinates of the keypoints, in keypoint order. */
  function YCoords(hand: Hand): (ys: seq<real>)
    ensures |ys| == |hand| && forall i | 0 <= i < |hand| :: ys[i] == hand[i].y
  {
    seq(|hand|, i requires 0 <= i < |hand| => hand[i].y)
  }

  function Mean(xs: seq<real>): real
    requires xs != []
  {
    SumReals(xs) / |xs| as real
  }

  /** The centre pixel: the mean keypoint, scaled to the frame and truncated. */
  function HandCenter(hand: Hand, height: int, width: int): Pixel
  {
    (ToPixel(Mean(XCoords(hand)), width), ToPixel(Mean(YCoords(hand)), height))
  }

  /** The mean of unit coordinates is a unit coordinate. */
  lemma MeanInUnit(xs: seq<real>)
    requires xs != []
    requires forall i | 0 <= i < |xs| :: 0.0 <= xs[i] <= 1.0
    ensures 0.0 <= Mean(xs) <= 1.0
  {
    SumRealsBounds(xs, 0.0, 1.0);
  }

  /** A hand whose keypoints are all inside the image has its centre inside the frame. */
  lemma CenterInFrame(hand: Hand, height: int, width: int)
    requires 0 <= height && 0 <= width
    requires forall i | 0 <= i < |hand| :: 0.0 <= hand[i].x <= 1.0 && 0.0 <= hand[i].y <= 1.0
    ensures var center := HandCenter(hand, height, width);
      0 <= center.0 <= width && 0 <= center.1 <= height
  {
    var xs, ys := XCoords(hand), YCoords(hand);
    MeanInUnit(xs);
    MeanInUnit(ys);
  }

  /**
   * A normalised coordinate as a pixel: `int(c * size)`, truncated toward
   * zero; a unit coordinate lands in `0..size`.
   */
  function ToPixel(c: real, size: int): (n: int)
    ensures 0.0 <= c && 0 <= size ==> 0 <= n && n as real <= c * size as real < n as real + 1.0
    ensures 0.0 <= c <= 1.0 && 0 <= size ==> 0 <= n <= size
  {
    ScaledCoordinate(c, size as real);
    Trunc(c * size as real)
  }

  /** Scaling by a non-negative size keeps a coordinate non-negative, and a unit one at most the size. */
  lemma ScaledCoordinate(c: real, size: real)
    ensures 0.0 <= c && 0.0 <= size ==> 0.0 <= c * size
    ensures 0.0 <= c <= 1.0 && 0.0 <= size ==> c * size <= size
  {
    if 0.0 <= c && 0.0 <= size {
      ProductNonnegative(c, size);
    }
    if 0.0 <= c <= 1.0 && 0.0 <= size {
      ProductNonnegative(1.0 - c, size);
    }
  }
}
