/**
  processing/find_camera_position.py, `order_points`: the corners of one
  tape piece ordered as the pose estimation expects them, the two
  leftmost first (upper one first), then the other corners by their
  distance from the lower left corner.
*/
module CameraPosition {

  import opened Common

  /** The key `dist`: the distance to `topLeft`, compared through its square. */
  function SqDistFrom(topLeft: Point): (f: Point -> real)
    ensures f(topLeft) == 0.0 && forall p :: f(p) >= 0.0
  {
    p => SqDist(topLeft, p)
  }

  /**
    `order_points`. Reading `leftMost[1]` needs two corners. The sort by
    `math.hypot` is the sort by squared distance (see `HypotSameOrder`).
  */
  function OrderPoints(pts: seq<Point>): (r: seq<Point>)
    requires |pts| >= 2
    ensures |r| == |pts|
  {
    var xSorted := SortBy(pts, GetX);
    var leftMost := SortBy(xSorted[..2], GetY);
    var topLeft := leftMost[1];
    leftMost + SortBy(xSorted[2..], SqDistFrom(topLeft))
  }

  /** The result is a reordering of the corners. */
  lemma OrderPointsPermutation(pts: seq<Point>)
    requires |pts| >= 2
    ensures multiset(OrderPoints(pts)) == multiset(pts)
  {
    var xSorted := SortBy(pts, GetX);
    SortByBag(pts, GetX);
    SortByBag(xSorted[..2], GetY);
    SortByBag(xSorted[2..], SqDistFrom(SortBy(xSorted[..2], GetY)[1]));
    assert xSorted == xSorted[..2] + xSorted[2..];
  }

  /**
    The first two outputs are the first two corners of the stable sort by
    x, in ascending y, and no later output lies further left.
  */
  lemma LeftPairFirst(pts: seq<Point>)
    requires |pts| >= 2
    ensures var r := OrderPoints(pts);
      && multiset(r[..2]) == multiset(SortBy(pts, GetX)[..2])
      && r[0].y <= r[1].y
      && forall i, j :: 0 <= i < 2 <= j < |r| ==> r[i].x <= r[j].x
  {
    var xSorted := SortBy(pts, GetX);
    var leftMost := SortBy(xSorted[..2], GetY);
    var rest := SortBy(xSorted[2..], SqDistFrom(leftMost[1]));
    var r := OrderPoints(pts);
    assert r == leftMost + rest;
    assert r[..2] == leftMost;
    SortByBag(xSorted[..2], GetY);
    SortByBag(xSorted[2..], SqDistFrom(leftMost[1]));
    assert GetY(leftMost[0]) <= GetY(leftMost[1]);
    forall i, j | 0 <= i < 2 <= j < |r|
      ensures r[i].x <= r[j].x
    {
      assert r[i] in multiset(xSorted[..2]);
      assert r[j] == rest[j - 2];
      assert r[j] in multiset(xSorted[2..]);
      HeadNotRightOfTail(xSorted, r[i], r[j]);
    }
  }

  /** In a list sorted by x, no point of the first two lies right of a later one. */
  lemma HeadNotRightOfTail(s: seq<Point>, u: Point, v: Point)
    requires |s| >= 2 && SortedBy(s, GetX)
    requires u in multiset(s[..2]) && v in multiset(s[2..])
    ensures u.x <= v.x
  {
    var a :| 0 <= a < 2 && s[..2][a] == u;
    var b :| 0 <= b < |s| - 2 && s[2..][b] == v;
    assert GetX(s[a]) <= GetX(s[b + 2]);
  }

  /** The other corners come in ascending distance from the second output. */
  lemma RestByDistance(pts: seq<Point>)
    requires |pts| >= 2
    ensures var r := OrderPoints(pts);
      forall i, j :: 2 <= i < j < |r| ==> SqDist(r[1], r[i]) <= SqDist(r[1], r[j])
  {
    var xSorted := SortBy(pts, GetX);
    var leftMost := SortBy(xSorted[..2], GetY);
    var rest := SortBy(xSorted[2..], SqDistFrom(leftMost[1]));
    var r := OrderPoints(pts);
    assert r == leftMost + rest;
    forall i, j | 2 <= i < j < |r|
      ensures SqDist(r[1], r[i]) <= SqDist(r[1], r[j])
    {
      assert r[i] == rest[i - 2] && r[j] == rest[j - 2];
      assert SqDistFrom(leftMost[1])(rest[i - 2]) <= SqDistFrom(leftMost[1])(rest[j - 2]);
    }
  }

  lemma MulNonNegative(a: real, b: real)
    requires a >= 0.0 && b >= 0.0
    ensures a * b >= 0.0
  {
  }

  lemma MulPositive(a: real, b: real)
    requires a > 0.0 && b > 0.0
    ensures a * b > 0.0
  {
  }

  /** Non-negative numbers compare as their squares do. */
  lemma RootsSameOrder(d1: real, d2: real, s1: real, s2: real)
    requires d1 >= 0.0 && d2 >= 0.0 && d1 * d1 == s1 && d2 * d2 == s2
    ensures d1 <= d2 <==> s1 <= s2
  {
    if d1 > d2 {
      MulNonNegative(d2, d1 - d2);
      MulPositive(d1, d1 - d2);
      assert s1 - s2 == d1 * (d1 - d2) + d2 * (d1 - d2);
      assert s1 > s2;
    } else {
      MulNonNegative(d1, d2 - d1);
      MulNonNegative(d2, d2 - d1);
      assert s2 - s1 == d1 * (d2 - d1) + d2 * (d2 - d1);
    }
  }

  /**
    Sorting by any non-negative key whose square is the squared distance
    (`math.fabs(math.hypot(..))` is one) gives the same order as sorting
    by the squared distance.
  */
  lemma HypotSameOrder(s: seq<Point>, topLeft: Point, dist: Point -> real)
    requires forall p :: IsDistance(dist(p), SqDist(topLeft, p))
    ensures SortBy(s, dist) == SortBy(s, SqDistFrom(topLeft))
  {
    var sq := SqDistFrom(topLeft);
    forall a, b
      ensures dist(a) <= dist(b) <==> sq(a) <= sq(b)
    {
      assert IsDistance(dist(a), sq(a)) && IsDistance(dist(b), sq(b));
      RootsSameOrder(dist(a), dist(b), sq(a), sq(b));
    }
    SortBySameOrder(s, dist, sq);
  }

  /** `d` is the non-negative square root of `sq`. */
  predicate IsDistance(d: real, sq: real)
  {
    d >= 0.0 && d * d == sq
  }
}
