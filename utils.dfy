/** Geometry, keypoint reliability and moving-average smoothing (lib/pose/utils.ts). */
module Utils {
  import opened Types

  /**
   * The two library routines the geometry calls, `Math.sqrt` and `Math.acos`.
   * Their numeric values are not modelled; `Lawful` states the laws the proofs rely on.
   */
  datatype MathLib = MathLib(sqrt: real -> real, acos: real -> real)

  /** `Math.PI`. */
  const Pi: real := 3.141592653589793

  ghost predicate Lawful(m: MathLib)
  {
    && (forall x: real :: 0.0 <= x ==> 0.0 <= m.sqrt(x) && m.sqrt(x) * m.sqrt(x) == x)
    && (forall c: real :: -1.0 <= c <= 1.0 ==> 0.0 <= m.acos(c) <= Pi)
    && m.acos(1.0) == 0.0 && m.acos(0.0) == Pi / 2.0 && m.acos(-1.0) == Pi
  }

  function Abs(v: real): real { if v < 0.0 then -v else v }

  function Max(a: real, b: real): real { if a < b then b else a }

  function Min(a: real, b: real): real { if a < b then a else b }

  /** `Math.pow(v, 2)`. */
  function Square(v: real): real { v * v }

  /** Euclidean distance between two keypoints: the non-negative root of the summed squared differences. */
  function Distance(m: MathLib, a: Keypoint, b: Keypoint): (r: real)
    ensures Lawful(m) ==> 0.0 <= r && r * r == Square(b.x - a.x) + Square(b.y - a.y)
  {
    SquareNonNegative(b.x - a.x);
    SquareNonNegative(b.y - a.y);
    m.sqrt(Square(b.x - a.x) + Square(b.y - a.y))
  }

  predicate SamePosition(a: Keypoint, b: Keypoint) { a.x == b.x && a.y == b.y }

  lemma SquareMonotone(a: real, b: real)
    requires 0.0 <= a < b
    ensures a * a < b * b
  {
    var p, q, r := a * a, a * b, b * b;
    assert p <= q;
    assert q < r;
  }

  lemma ProductPositive(a: real, b: real)
    requires 0.0 < a && 0.0 < b
    ensures 0.0 < a * b
  {
  }

  /** Multiplying by a positive factor keeps a strict order. */
  lemma ProductMonotone(a: real, b: real, c: real)
    requires a < b && 0.0 < c
    ensures a * c < b * c
  {
    ProductPositive(b - a, c);
    assert (b - a) * c == b * c - a * c;
  }

  /** A bound on the numerator gives a bound on the quotient. */
  lemma QuotientAtMost(x: real, d: real, k: real)
    requires 0.0 < d && x <= k * d
    ensures x / d <= k
  {
    var q := x / d;
    assert q * d == x;
    if k < q {
      ProductMonotone(k, q, d);
    }
  }

  lemma QuotientNonNegative(x: real, d: real)
    requires 0.0 <= x && 0.0 < d
    ensures 0.0 <= x / d
  {
    var q := x / d;
    assert q * d == x;
    if q < 0.0 {
      ProductMonotone(q, 0.0, d);
    }
  }

  lemma SquarePositive(v: real)
    requires v != 0.0
    ensures 0.0 < Square(v)
  {
    if v < 0.0 {
      SquareMonotone(0.0, -v);
      assert Square(v) == (-v) * (-v);
    } else {
      SquareMonotone(0.0, v);
    }
  }

  lemma SquareNonNegative(v: real)
    ensures 0.0 <= Square(v)
  {
    if v != 0.0 {
      SquarePositive(v);
    }
  }

  /** The law of `sqrt` determines it on squares. */
  lemma SqrtOfSquare(m: MathLib, y: real)
    requires Lawful(m) && 0.0 <= y
    ensures m.sqrt(y * y) == y
  {
    var s := m.sqrt(y * y);
    assert 0.0 <= s && s * s == y * y;
    if s < y {
      SquareMonotone(s, y);
    } else if y < s {
      SquareMonotone(y, s);
    }
  }

  /** A distance is never negative, is symmetric, and is zero exactly between coincident points. */
  lemma DistanceProperties(m: MathLib, a: Keypoint, b: Keypoint)
    requires Lawful(m)
    ensures Distance(m, a, b) >= 0.0
    ensures Distance(m, a, b) == Distance(m, b, a)
    ensures Distance(m, a, b) == 0.0 <==> SamePosition(a, b)
  {
    var dx, dy := b.x - a.x, b.y - a.y;
    assert Square(a.x - b.x) == Square(dx) && Square(a.y - b.y) == Square(dy);
    var s := Square(dx) + Square(dy);
    assert 0.0 <= Square(dx) && 0.0 <= Square(dy);
    var d := m.sqrt(s);
    assert d * d == s;
    if SamePosition(a, b) {
      assert s == 0.0 * 0.0;
      SqrtOfSquare(m, 0.0);
    } else {
      assert 0.0 < s by {
        if dx != 0.0 { SquarePositive(dx); } else { SquarePositive(dy); }
      }
      assert d != 0.0;
    }
  }

  /** The cosine clamped into [-1, 1] before `acos`. */
  function Clamp(c: real): (r: real)
    ensures -1.0 <= r <= 1.0
    ensures -1.0 <= c <= 1.0 ==> r == c
  {
    Max(-1.0, Min(1.0, c))
  }

  /** An angle in [0, π] radians is in [0, 180] degrees. */
  lemma DegreesInRange(rad: real)
    ensures 0.0 <= rad <= Pi ==> 0.0 <= rad * 180.0 / Pi <= 180.0
  {
    if 0.0 <= rad <= Pi {
      var deg := rad * 180.0 / Pi;
      assert deg == rad * (180.0 / Pi);
      assert deg <= Pi * (180.0 / Pi);
    }
  }

  /** The angle ABC in degrees, `b` the vertex, by the law of cosines; 0 when `a` or `c` coincides with `b`. */
  function ComputeJointAngle(m: MathLib, a: Keypoint, b: Keypoint, c: Keypoint): (r: real)
    ensures Lawful(m) ==> 0.0 <= r <= 180.0
  {
    var ab := Distance(m, a, b);
    var bc := Distance(m, b, c);
    var ac := Distance(m, a, c);
    if ab == 0.0 || bc == 0.0 then 0.0
    else
      var cosAngle := (Square(ab) + Square(bc) - Square(ac)) / (2.0 * ab * bc);
      var rad := m.acos(Clamp(cosAngle));
      DegreesInRange(rad);
      rad * 180.0 / Pi
  }

  /** When `a` or `c` coincides with the vertex `b`, the angle is the sentinel 0. */
  lemma JointAngleDegenerate(m: MathLib, a: Keypoint, b: Keypoint, c: Keypoint)
    requires Lawful(m)
    requires SamePosition(a, b) || SamePosition(b, c)
    ensures ComputeJointAngle(m, a, b, c) == 0.0
  {
    DistanceProperties(m, a, b);
    DistanceProperties(m, b, c);
  }

  /** Three identical points give 0. */
  lemma JointAngleIdenticalPoints(m: MathLib, p: Keypoint)
    requires Lawful(m)
    ensures ComputeJointAngle(m, p, p, p) == 0.0
  {
    JointAngleDegenerate(m, p, p, p);
  }

  /** (0,0), (0,1), (1,1) form a right angle at (0,1). */
  lemma JointAngleRightAngle(m: MathLib)
    requires Lawful(m)
    ensures ComputeJointAngle(m, Keypoint(0.0, 0.0, 1.0), Keypoint(0.0, 1.0, 1.0), Keypoint(1.0, 1.0, 1.0)) == 90.0
  {
    var a, b, c := Keypoint(0.0, 0.0, 1.0), Keypoint(0.0, 1.0, 1.0), Keypoint(1.0, 1.0, 1.0);
    SqrtOfSquare(m, 1.0);
    assert Distance(m, a, b) == m.sqrt(1.0 * 1.0) == 1.0;
    assert Distance(m, b, c) == m.sqrt(1.0 * 1.0) == 1.0;
    var ac := Distance(m, a, c);
    assert ac == m.sqrt(2.0) && Square(ac) == 2.0;
    assert (Square(1.0) + Square(1.0) - Square(ac)) / (2.0 * 1.0 * 1.0) == 0.0;
    assert m.acos(Clamp(0.0)) == Pi / 2.0;
  }

  /** (0,0), (1,0), (2,0) are collinear with the vertex in the middle: 180 degrees. */
  lemma JointAngleStraightLine(m: MathLib)
    requires Lawful(m)
    ensures ComputeJointAngle(m, Keypoint(0.0, 0.0, 1.0), Keypoint(1.0, 0.0, 1.0), Keypoint(2.0, 0.0, 1.0)) == 180.0
  {
    var a, b, c := Keypoint(0.0, 0.0, 1.0), Keypoint(1.0, 0.0, 1.0), Keypoint(2.0, 0.0, 1.0);
    SqrtOfSquare(m, 1.0);
    SqrtOfSquare(m, 2.0);
    assert Distance(m, a, b) == m.sqrt(1.0 * 1.0) == 1.0;
    assert Distance(m, b, c) == m.sqrt(1.0 * 1.0) == 1.0;
    assert Distance(m, a, c) == m.sqrt(2.0 * 2.0) == 2.0;
    assert (Square(1.0) + Square(1.0) - Square(2.0)) / (2.0 * 1.0 * 1.0) == -1.0;
    assert m.acos(Clamp(-1.0)) == Pi;
  }

  /** The default confidence threshold. */
  const DefaultThreshold: real := 0.4

  /** A keypoint is reliable when its score reaches the threshold. */
  predicate IsKeypointReliable(k: Keypoint, threshold: real)
  {
    k.score >= threshold
  }

  /** Reliability is monotone in the threshold, and the placeholder is never reliable at a positive one. */
  lemma ReliabilityMonotone(k: Keypoint, strict: real, loose: real)
    requires loose <= strict
    ensures IsKeypointReliable(k, strict) ==> IsKeypointReliable(k, loose)
    ensures 0.0 < strict ==> !IsKeypointReliable(Placeholder, strict)
  {
  }

  // ---- Sums, means and the moving average ----

  /** Left fold `reduce((sum, v) => sum + v, 0)`. */
  function Sum(s: seq<real>): real
  {
    if |s| == 0 then 0.0 else Sum(s[..|s| - 1]) + s[|s| - 1]
  }

  function Mean(s: seq<real>): real
    requires |s| > 0
  {
    Sum(s) / |s| as real
  }

  /** Bounds on every element bound the sum. */
  lemma {:induction false} SumBounds(s: seq<real>, lo: real, hi: real)
    requires forall k :: 0 <= k < |s| ==> lo <= s[k] <= hi
    ensures |s| as real * lo <= Sum(s) <= |s| as real * hi
  {
    if |s| > 0 {
      SumBounds(s[..|s| - 1], lo, hi);
    }
  }

  /** A constant sequence sums to its length times the constant. */
  lemma {:induction false} SumConstant(s: seq<real>, c: real)
    requires forall k :: 0 <= k < |s| ==> s[k] == c
    ensures Sum(s) == |s| as real * c
  {
    if |s| > 0 {
      SumConstant(s[..|s| - 1], c);
    }
  }

  /** The mean lies within any bounds on the elements, and a constant sequence has that constant as mean. */
  lemma MeanBounds(s: seq<real>, lo: real, hi: real)
    requires |s| > 0
    requires forall k :: 0 <= k < |s| ==> lo <= s[k] <= hi
    ensures lo <= Mean(s) <= hi
    ensures lo == hi ==> Mean(s) == lo
  {
    SumBounds(s, lo, hi);
  }

  /** First index of the window of index `i`: `Math.max(0, i - Math.floor(w / 2))`. */
  function WindowStart(i: int, w: nat): int
  {
    if 0 < i - w / 2 then i - w / 2 else 0
  }

  /** One past the last index of the window: `Math.min(n, i + Math.floor(w / 2) + 1)`. */
  function WindowEnd(n: int, i: int, w: nat): int
  {
    if n < i + w / 2 + 1 then n else i + w / 2 + 1
  }

  /** The average of the window centred on `i`, shrunk at the edges. */
  function WindowMean(values: seq<real>, i: int, w: nat): real
    requires 0 <= i < |values|
  {
    Mean(values[WindowStart(i, w)..WindowEnd(|values|, i, w)])
  }

  /** The smoothed series: empty stays empty, shorter than the window is returned as is. */
  function Smoothed(values: seq<real>, w: nat): (r: seq<real>)
    ensures |r| == |values|
  {
    if |values| == 0 then []
    else if |values| < w then values
    else seq(|values|, i requires 0 <= i < |values| => WindowMean(values, i, w))
  }

  /** Centred moving average, one window average pushed per index. */
  method SmoothArray(values: seq<real>, w: nat) returns (smoothed: seq<real>)
    ensures smoothed == Smoothed(values, w)
  {
    if |values| == 0 {
      return [];
    }
    if |values| < w {
      return values;
    }
    smoothed := [];
    var i := 0;
    while i < |values|
      invariant 0 <= i <= |values|
      invariant |smoothed| == i
      invariant forall k :: 0 <= k < i ==> smoothed[k] == WindowMean(values, k, w)
    {
      var start := if 0 < i - w / 2 then i - w / 2 else 0;
      var end := if |values| < i + w / 2 + 1 then |values| else i + w / 2 + 1;
      var window := values[start..end];
      var avg := Sum(window) / |window| as real;
      smoothed := smoothed + [avg];
      i := i + 1;
    }
  }

  /** Each smoothed value lies between the least and the greatest value of its window. */
  lemma WindowMeanWithinWindow(values: seq<real>, i: int, w: nat, lo: real, hi: real)
    requires 0 <= i < |values|
    requires forall k :: WindowStart(i, w) <= k < WindowEnd(|values|, i, w) ==> lo <= values[k] <= hi
    ensures lo <= WindowMean(values, i, w) <= hi
  {
    var win := values[WindowStart(i, w)..WindowEnd(|values|, i, w)];
    assert forall k :: 0 <= k < |win| ==> win[k] == values[WindowStart(i, w) + k];
    MeanBounds(win, lo, hi);
  }

  /** Smoothing keeps every value within any bounds the input respects. */
  lemma SmoothedWithin(values: seq<real>, w: nat, lo: real, hi: real)
    requires forall k :: 0 <= k < |values| ==> lo <= values[k] <= hi
    ensures forall k :: 0 <= k < |values| ==> lo <= Smoothed(values, w)[k] <= hi
  {
    if |values| >= w && |values| > 0 {
      forall k | 0 <= k < |values|
        ensures lo <= Smoothed(values, w)[k] <= hi
      {
        WindowMeanWithinWindow(values, k, w, lo, hi);
      }
    }
  }

  /** A constant series stays the same constant series. */
  lemma SmoothedConstant(values: seq<real>, w: nat, c: real)
    requires forall k :: 0 <= k < |values| ==> values[k] == c
    ensures forall k :: 0 <= k < |values| ==> Smoothed(values, w)[k] == c
  {
    SmoothedWithin(values, w, c, c);
  }
}
