/**
  The corner comparison of the image tests (tests/processing.py): two
  corner lists match when each corner of the first, taken in order, has a
  not yet used corner of the second within MAX_DIST pixels, the nearest
  one being taken greedily.
*/
module CornerMatching {

  import opened Common

  /** `MAX_DIST`, in pixels. */
  const MaxDist: real := 50.0

  /**
    `dist > MAX_DIST` with `dist = sqrt(diff)` and `diff >= 0`, which holds
    exactly when `diff > MAX_DIST * MAX_DIST`.
  */
  const MaxSqDist: real := MaxDist * MaxDist

  /** `np.sum(np.square(np.abs(c2 - p)), axis=1)`: the squared distance of each row to `p`. */
  function Diffs(c2: seq<Point>, p: Point): (d: seq<real>)
    ensures |d| == |c2| && forall j :: 0 <= j < |c2| ==> d[j] == SqDist(c2[j], p)
  {
    seq(|c2|, j requires 0 <= j < |c2| => SqDist(c2[j], p))
  }

  /** `np.argmin`: the first position holding the least value. */
  function ArgMin(ds: seq<real>): (k: nat)
    requires |ds| > 0
    ensures k < |ds|
    ensures forall j :: 0 <= j < |ds| ==> ds[k] <= ds[j]
    ensures forall j :: 0 <= j < k ==> ds[j] > ds[k]
  {
    if |ds| == 1 then 0
    else
      var k := ArgMin(ds[..|ds| - 1]);
      assert forall j :: 0 <= j < |ds| - 1 ==> ds[..|ds| - 1][j] == ds[j];
      if ds[|ds| - 1] < ds[k] then |ds| - 1 else k
  }

  /** `np.delete(c, i, 0)`: the list without its row `i`. */
  function Delete(c: seq<Point>, i: nat): (r: seq<Point>)
    requires i < |c|
    ensures |r| == |c| - 1
    ensures multiset(r) + multiset{c[i]} == multiset(c)
  {
    assert c == c[..i] + [c[i]] + c[i + 1..];
    c[..i] + c[i + 1..]
  }

  /** `compare_corners(c1, c2)`. */
  function CompareCorners(c1: seq<Point>, c2: seq<Point>): (ok: bool)
    ensures ok ==> |c1| == |c2|
    decreases |c1|
  {
    if |c1| != |c2| then false
    else if |c1| == 0 then true
    else
      var diff := Diffs(c2, c1[0]);
      var index := ArgMin(diff);
      if diff[index] > MaxSqDist then false
      else CompareCorners(c1[1..], Delete(c2, index))
  }

  // ---------------------------------------------------------------------
  // Properties
  // ---------------------------------------------------------------------

  /** Lists of different lengths never match, two empty lists always do. */
  lemma LengthsDecide(c1: seq<Point>, c2: seq<Point>)
    ensures |c1| != |c2| ==> !CompareCorners(c1, c2)
    ensures c1 == [] && c2 == [] ==> CompareCorners(c1, c2)
  {
  }

  /** Single corners match exactly when they are at most 50 pixels apart. */
  lemma SingleCorners(p: Point, q: Point)
    ensures CompareCorners([p], [q]) <==> SqDist(q, p) <= 2500.0
  {
    var diff := Diffs([q], p);
    assert ArgMin(diff) == 0;
    assert Delete([q], 0) == [];
  }

  /** The nearest corner of a list that holds `p` itself is the first copy of `p`. */
  lemma NearestOfSelf(c: seq<Point>)
    requires |c| > 0
    ensures ArgMin(Diffs(c, c[0])) == 0
  {
    var d := Diffs(c, c[0]);
    assert d[0] == 0.0;
  }

  /** Every corner list matches itself: each corner has a partner at distance 0. */
  lemma {:induction false} SelfMatch(c: seq<Point>)
    ensures CompareCorners(c, c)
    decreases |c|
  {
    if c != [] {
      NearestOfSelf(c);
      assert Delete(c, 0) == c[1..];
      SelfMatch(c[1..]);
    }
  }

  /** Some corner of `qs` is within 50 pixels of `p`. */
  predicate NearOne(p: Point, qs: seq<Point>)
  {
    exists q :: q in qs && SqDist(q, p) <= MaxSqDist
  }

  /** Every corner of the first list has a corner of the second within 50 pixels. */
  lemma {:induction false} FirstHavePartners(c1: seq<Point>, c2: seq<Point>)
    requires CompareCorners(c1, c2)
    ensures forall p :: p in c1 ==> NearOne(p, c2)
    decreases |c1|
  {
    if c1 != [] {
      var index := ArgMin(Diffs(c2, c1[0]));
      var rest := Delete(c2, index);
      FirstHavePartners(c1[1..], rest);
      assert NearOne(c1[0], c2) by {
        assert c2[index] in c2 && SqDist(c2[index], c1[0]) <= MaxSqDist;
      }
      forall p | p in c1[1..]
        ensures NearOne(p, c2)
      {
        var q :| q in rest && SqDist(q, p) <= MaxSqDist;
        DeleteMembers(c2, index, q);
      }
      assert c1 == [c1[0]] + c1[1..];
    }
  }

  /** The corners left by `Delete` are those of the list, less the deleted one. */
  lemma DeleteMembers(c: seq<Point>, i: nat, q: Point)
    requires i < |c|
    ensures q in Delete(c, i) ==> q in c
    ensures q in c && q != c[i] ==> q in Delete(c, i)
  {
    var r := Delete(c, i);
    assert r == c[..i] + c[i + 1..];
    if q in c && q != c[i] {
      var j :| 0 <= j < |c| && c[j] == q;
      if j < i {
        assert r[j] == q;
      } else {
        assert r[j - 1] == q;
      }
    }
  }

  lemma SqDistSymmetric(p: Point, q: Point)
    ensures SqDist(p, q) == SqDist(q, p)
  {
    assert (p.x - q.x) * (p.x - q.x) == (q.x - p.x) * (q.x - p.x);
    assert (p.y - q.y) * (p.y - q.y) == (q.y - p.y) * (q.y - p.y);
  }

  /** Every corner of the second list has a corner of the first within 50 pixels. */
  lemma {:induction false} SecondHavePartners(c1: seq<Point>, c2: seq<Point>)
    requires CompareCorners(c1, c2)
    ensures forall q :: q in c2 ==> NearOne(q, c1)
    decreases |c1|
  {
    if c1 != [] {
      var index := ArgMin(Diffs(c2, c1[0]));
      var rest := Delete(c2, index);
      SecondHavePartners(c1[1..], rest);
      assert SqDist(c2[index], c1[0]) <= MaxSqDist;
      SqDistSymmetric(c2[index], c1[0]);
      assert NearOne(c2[index], c1) by {
        assert c1[0] in c1;
      }
      forall q | q in c2 && q != c2[index]
        ensures NearOne(q, c1)
      {
        DeleteMembers(c2, index, q);
        assert NearOne(q, c1[1..]);
        var p :| p in c1[1..] && SqDist(p, q) <= MaxSqDist;
        assert p in c1;
      }
    }
  }

  /**
    The greedy step: the first corner is paired with the earliest nearest
    corner of the other list, and the match fails at once when that corner
    is more than 50 pixels away.
  */
  lemma GreedyStep(c1: seq<Point>, c2: seq<Point>, index: nat)
    requires |c1| == |c2| > 0 && index < |c2|
    requires forall j :: 0 <= j < |c2| ==> SqDist(c2[index], c1[0]) <= SqDist(c2[j], c1[0])
    requires forall j :: 0 <= j < index ==> SqDist(c2[j], c1[0]) > SqDist(c2[index], c1[0])
    ensures CompareCorners(c1, c2) <==>
      SqDist(c2[index], c1[0]) <= MaxSqDist && CompareCorners(c1[1..], Delete(c2, index))
  {
    assert ArgMin(Diffs(c2, c1[0])) == index;
  }

  /** No corner of `c2` within 50 pixels of some corner of `c1`: the lists cannot match. */
  lemma FarCornerFails(c1: seq<Point>, c2: seq<Point>, p: Point)
    requires p in c1 && forall q :: q in c2 ==> SqDist(q, p) > MaxSqDist
    ensures !CompareCorners(c1, c2)
  {
    if CompareCorners(c1, c2) {
      FirstHavePartners(c1, c2);
    }
  }
}
