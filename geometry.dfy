/**
 * Plane points and the two pure computations the canvas does on them:
 * the screen <-> canvas-local transform under a pan offset, and the
 * centroid of a polygon (the mean of its vertices). Coordinates are
 * exact reals: floating-point rounding is not modelled.
 */
module Geometry {

  /** `{ x, y }` records: stored vertices, client positions, the pan offset and the drag anchor. */
  datatype Point = Point(x: real, y: real)

  const Origin := Point(0.0, 0.0)

  function Add(p: Point, q: Point): Point {
    Point(p.x + q.x, p.y + q.y)
  }

  function Sub(p: Point, q: Point): Point {
    Point(p.x - q.x, p.y - q.y)
  }

  /** Where the renderer draws a stored vertex: the vertex shifted by the pan offset. */
  function ToScreen(p: Point, offset: Point): Point {
    Add(p, offset)
  }

  /**
   * The vertex a click stores: the client position, less the canvas's
   * top-left corner, less the pan offset. Drawing it back with the same
   * offset puts it at canvas coordinate `client - corner`.
   */
  function ToCanvasLocal(client: Point, corner: Point, offset: Point): (p: Point)
    ensures ToScreen(p, offset) == Sub(client, corner)
  {
    Point(client.x - corner.x - offset.x, client.y - corner.y - offset.y)
  }

  /** The other direction of the round trip: a drawn vertex clicked again is stored as itself. */
  lemma CanvasLocalOfScreen(p: Point, corner: Point, offset: Point)
    ensures ToCanvasLocal(Add(corner, ToScreen(p, offset)), corner, offset) == p
  {
  }

  /** What `xs.reduce((sum, v) => sum + v, acc)` computes: a fold from the left. */
  function Reduce(xs: seq<real>, acc: real): real {
    if xs == [] then acc else Reduce(xs[1..], acc + xs[0])
  }

  /** Folding from any start is folding from zero, plus the start. */
  lemma {:induction false} ReduceFromStart(xs: seq<real>, acc: real)
    ensures Reduce(xs, acc) == acc + Reduce(xs, 0.0)
  {
    if xs != [] {
      ReduceFromStart(xs[1..], acc + xs[0]);
      ReduceFromStart(xs[1..], 0.0 + xs[0]);
    }
  }

  /** The total of the samples, defined from the front. */
  function Sum(xs: seq<real>): real {
    if xs == [] then 0.0 else xs[0] + Sum(xs[1..])
  }

  /** The total defined from the front is the fold from the left that `reduce` performs. */
  lemma {:induction false} SumIsReduce(xs: seq<real>)
    ensures Sum(xs) == Reduce(xs, 0.0)
  {
    if xs != [] {
      SumIsReduce(xs[1..]);
      ReduceFromStart(xs[1..], 0.0 + xs[0]);
    }
  }

  /** The sum divided by the count; a list of equal values has that value as its mean. */
  function Mean(xs: seq<real>): (m: real)
    requires |xs| > 0
    ensures (forall i :: 0 <= i < |xs| ==> xs[i] == xs[0]) ==> m == xs[0]
  {
    SumOfEqual(xs);
    Sum(xs) / |xs| as real
  }

  /** Every value shifted by `c`. */
  function Shifted(xs: seq<real>, c: real): (r: seq<real>)
    ensures |r| == |xs|
  {
    seq(|xs|, i requires 0 <= i < |xs| => xs[i] + c)
  }

  lemma {:induction false} SumBounds(xs: seq<real>, lo: real, hi: real)
    requires forall i :: 0 <= i < |xs| ==> lo <= xs[i] <= hi
    ensures |xs| as real * lo <= Sum(xs) <= |xs| as real * hi
  {
    if xs != [] {
      SumBounds(xs[1..], lo, hi);
      assert |xs| as real * lo == lo + |xs[1..]| as real * lo;
      assert |xs| as real * hi == hi + |xs[1..]| as real * hi;
    }
  }

  /** A list of equal values sums to the count times that value. */
  lemma SumOfEqual(xs: seq<real>)
    requires |xs| > 0
    ensures (forall i :: 0 <= i < |xs| ==> xs[i] == xs[0]) ==> Sum(xs) == |xs| as real * xs[0]
  {
    if forall i :: 0 <= i < |xs| ==> xs[i] == xs[0] {
      SumBounds(xs, xs[0], xs[0]);
    }
  }

  /** A mean lies between any lower and upper bound of the values it averages. */
  lemma MeanBounds(xs: seq<real>, lo: real, hi: real)
    requires |xs| > 0
    requires forall i :: 0 <= i < |xs| ==> lo <= xs[i] <= hi
    ensures lo <= Mean(xs) <= hi
  {
    SumBounds(xs, lo, hi);
    var n := |xs| as real;
    assert Sum(xs) / n >= lo by {
      assert Sum(xs) >= n * lo;
    }
    assert Sum(xs) / n <= hi by {
      assert Sum(xs) <= n * hi;
    }
  }

  lemma {:induction false} SumShifted(xs: seq<real>, c: real)
    ensures Sum(Shifted(xs, c)) == Sum(xs) + |xs| as real * c
  {
    if xs != [] {
      assert Shifted(xs, c)[1..] == Shifted(xs[1..], c);
      SumShifted(xs[1..], c);
      assert |xs| as real * c == c + |xs[1..]| as real * c;
    }
  }

  /** Shifting every value shifts the mean by the same amount. */
  lemma MeanShifted(xs: seq<real>, c: real)
    requires |xs| > 0
    ensures Mean(Shifted(xs, c)) == Mean(xs) + c
  {
    var n := |xs| as real;
    var total := Sum(xs);
    SumShifted(xs, c);
    assert Mean(Shifted(xs, c)) == (total + n * c) / n;
    DivideShifted(total, n, c);
    assert Mean(xs) == total / n;
  }

  lemma DivideShifted(total: real, n: real, c: real)
    requires n > 0.0
    ensures (total + n * c) / n == total / n + c
  {
    assert (total / n + c) * n == total + n * c;
  }

  function Xs(pts: seq<Point>): (r: seq<real>)
    ensures |r| == |pts|
  {
    seq(|pts|, i requires 0 <= i < |pts| => pts[i].x)
  }

  function Ys(pts: seq<Point>): (r: seq<real>)
    ensures |r| == |pts|
  {
    seq(|pts|, i requires 0 <= i < |pts| => pts[i].y)
  }

  /**
   * The label position of a polygon: the mean of its vertices' x and y.
   * A polygon whose vertices all coincide has its label on that point.
   */
  function Centroid(pts: seq<Point>): (c: Point)
    requires |pts| > 0
    ensures (forall i :: 0 <= i < |pts| ==> pts[i] == pts[0]) ==> c == pts[0]
  {
    Point(Mean(Xs(pts)), Mean(Ys(pts)))
  }

  /** Every vertex shifted by `d`, as the renderer does with the pan offset. */
  function Translate(pts: seq<Point>, d: Point): (r: seq<Point>)
    ensures |r| == |pts|
  {
    seq(|pts|, i requires 0 <= i < |pts| => Add(pts[i], d))
  }

  /**
   * Drawing the label at the centroid plus the pan offset puts it at the
   * centroid of the polygon as drawn on screen.
   */
  lemma CentroidTranslate(pts: seq<Point>, d: Point)
    requires |pts| > 0
    ensures Centroid(Translate(pts, d)) == ToScreen(Centroid(pts), d)
  {
    assert Xs(Translate(pts, d)) == Shifted(Xs(pts), d.x);
    assert Ys(Translate(pts, d)) == Shifted(Ys(pts), d.y);
    MeanShifted(Xs(pts), d.x);
    MeanShifted(Ys(pts), d.y);
  }

  /** The centroid lies inside every axis-aligned box that holds all the vertices. */
  lemma CentroidInBox(pts: seq<Point>, lo: Point, hi: Point)
    requires |pts| > 0
    requires forall i :: 0 <= i < |pts| ==> lo.x <= pts[i].x <= hi.x && lo.y <= pts[i].y <= hi.y
    ensures lo.x <= Centroid(pts).x <= hi.x && lo.y <= Centroid(pts).y <= hi.y
  {
    MeanBounds(Xs(pts), lo.x, hi.x);
    MeanBounds(Ys(pts), lo.y, hi.y);
  }

}
