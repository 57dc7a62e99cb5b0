/**
  src/main_experiment.py: the contour filter `valid_cnt`, the weighted
  score over the five sub-scores of `cnt_score`, and the choice of the
  best valid contour, `max(valid, key=weighted_score)`.
*/
module Experiment {

  import opened Common

  /**
    What `valid_cnt` asks OpenCV about a contour: its area, the area of
    its convex hull and the sides of its minimum-area rectangle. The
    contour lies inside its hull and the hull inside that rectangle, so
    the areas are ordered.
  */
  datatype Features = Features(area: real, hullArea: real, w: real, h: real)

  type Shape = f: Features | 0.0 <= f.area <= f.hullArea <= f.w * f.h && f.w >= 0.0 && f.h >= 0.0
    witness Features(0.0, 0.0, 0.0, 0.0)

  const MinArea := 100.0
  const MinSolidity := 0.8
  const MinAspect := 0.5
  const MinRectFill := 0.7

  /** `min(w, h) / max(w, h)`. */
  function Aspect(w: real, h: real): real
    requires w > 0.0 || h > 0.0
  {
    Min(w, h) / Max(w, h)
  }

  /** `rotrectarea = w * h`. */
  function RectArea(c: Shape): real
  {
    c.w * c.h
  }

  /**
    `valid_cnt`: the four tests in the source's order, each rejecting at
    once. Past the area test every divisor is positive.
  */
  predicate ValidCnt(c: Shape)
  {
    if !(c.area > MinArea) then false
    else if !(c.area / c.hullArea > MinSolidity) then false
    else if !(Aspect(c.w, c.h) > MinAspect) then false
    else if !(c.area / RectArea(c) > MinRectFill) then false
    else true
  }

  lemma PositiveSides(c: Shape)
    requires c.area > 0.0
    ensures c.hullArea > 0.0 && RectArea(c) > 0.0 && c.w > 0.0 && c.h > 0.0
  {
    assert c.w * c.h >= c.area;
    if c.w == 0.0 {
      ZeroTimes(c.h);
    } else if c.h == 0.0 {
      ZeroTimes(c.w);
    }
  }

  lemma ZeroTimes(r: real)
    ensures 0.0 * r == 0.0 && r * 0.0 == 0.0
  {
  }

  /** A contour is valid exactly when it passes all four strict thresholds. */
  lemma ValidCntExactly(c: Shape)
    ensures ValidCnt(c) <==>
      && c.area > 100.0
      && c.area / c.hullArea > 0.8
      && (c.w > 0.0 || c.h > 0.0) && Aspect(c.w, c.h) > 0.5
      && c.area / RectArea(c) > 0.7
  {
    if c.area > 100.0 {
      PositiveSides(c);
      assert c.w > 0.0 || c.h > 0.0;
      assert ValidCnt(c) == (c.area / c.hullArea > MinSolidity && Aspect(c.w, c.h) > MinAspect && c.area / RectArea(c) > MinRectFill);
    }
  }

  /** The same contour with the rectangle's width and height exchanged. */
  function Transposed(c: Shape): Shape
  {
    assert c.w * c.h == c.h * c.w;
    Features(c.area, c.hullArea, c.h, c.w)
  }

  /** Swapping the rectangle's sides changes nothing: the aspect uses min and max. */
  lemma ValidCntSwap(c: Shape)
    ensures ValidCnt(c) == ValidCnt(Transposed(c))
  {
    if c.area > 100.0 {
      PositiveSides(c);
      var t := Transposed(c);
      assert RectArea(t) == RectArea(c);
      assert Aspect(t.w, t.h) == Aspect(c.w, c.h);
    }
  }

  /** The five sub-scores `cnt_score` returns. */
  datatype Scores = Scores(hull: real, ar: real, rotrect: real, square: real, area: real)

  predicate InUnit(r: real)
  {
    0.0 <= r <= 1.0
  }

  /** `weighted_score`: a convex combination of the sub-scores. */
  function WeightedScore(s: Scores): (r: real)
    ensures InUnit(s.hull) && InUnit(s.ar) && InUnit(s.rotrect) && InUnit(s.square) && InUnit(s.area)
            ==> InUnit(r)
    ensures s == Scores(s.hull, s.hull, s.hull, s.hull, s.hull) ==> r == s.hull
  {
    0.2 * s.hull + 0.05 * s.ar + 0.2 * s.rotrect + 0.35 * s.square + 0.2 * s.area
  }

  /** A score that can only grow when a sub-score grows. */
  lemma WeightedScoreMonotone(s: Scores, t: Scores)
    requires s.hull <= t.hull && s.ar <= t.ar && s.rotrect <= t.rotrect
    requires s.square <= t.square && s.area <= t.area
    ensures WeightedScore(s) <= WeightedScore(t)
  {
  }

  /** The positions of the valid contours, in ascending order. */
  function ValidPositions(cs: seq<Shape>): (p: seq<nat>)
    ensures forall k :: 0 <= k < |p| ==> p[k] < |cs| && ValidCnt(cs[p[k]])
    ensures forall k, l :: 0 <= k < l < |p| ==> p[k] < p[l]
    ensures forall i :: 0 <= i < |cs| && ValidCnt(cs[i]) ==> i in p
  {
    if cs == [] then []
    else
      var n := |cs| - 1;
      var q := ValidPositions(cs[..n]);
      assert forall k :: 0 <= k < |q| ==> cs[..n][q[k]] == cs[q[k]];
      assert forall i :: 0 <= i < n ==> cs[..n][i] == cs[i];
      q + (if ValidCnt(cs[n]) then [n] else [])
  }

  /**
    `list(filter(valid_cnt, cnt))`: the valid contours, each as often and in
    the order in which it occurs.
  */
  function Valid(cs: seq<Shape>): (v: seq<Shape>)
    ensures |v| == |ValidPositions(cs)|
    ensures forall k :: 0 <= k < |v| ==> v[k] == cs[ValidPositions(cs)[k]]
    ensures forall c :: c in v <==> c in cs && ValidCnt(c)
  {
    var p := ValidPositions(cs);
    var v := seq(|p|, k requires 0 <= k < |p| => cs[p[k]]);
    assert forall c :: c in cs && ValidCnt(c) ==> c in v by {
      forall c | c in cs && ValidCnt(c)
        ensures c in v
      {
        var i :| 0 <= i < |cs| && cs[i] == c;
        var k :| 0 <= k < |p| && p[k] == i;
        assert v[k] == c;
      }
    }
    v
  }

  /**
    Python's `max(s, key=key)`: a left-to-right scan that replaces the
    current best only by a strictly greater key, so the first of tied
    maxima wins.
  */
  function ArgMax(s: seq<Shape>, key: Shape -> real): (i: nat)
    requires s != []
    ensures i < |s|
    ensures forall j :: 0 <= j < |s| ==> key(s[j]) <= key(s[i])
    ensures forall j :: 0 <= j < i ==> key(s[j]) < key(s[i])
  {
    if |s| == 1 then 0
    else
      var i := ArgMax(s[..|s| - 1], key);
      assert forall j :: 0 <= j < |s| - 1 ==> s[..|s| - 1][j] == s[j];
      if key(s[|s| - 1]) > key(s[i]) then |s| - 1 else i
  }

  /** Line 148: the best-scoring valid contour, or None when none is valid. */
  function BestContour(cs: seq<Shape>, scores: Shape -> Scores): (best: Option<Shape>)
    ensures best.None? <==> forall c :: c in cs ==> !ValidCnt(c)
    ensures best.Some? ==>
      && best.value in cs && ValidCnt(best.value)
      && forall c :: c in cs && ValidCnt(c) ==> WeightedScore(scores(c)) <= WeightedScore(scores(best.value))
  {
    var valid := Valid(cs);
    if |valid| > 0 then
      var key := (c: Shape) => WeightedScore(scores(c));
      var i := ArgMax(valid, key);
      assert forall c :: c in valid ==> key(c) <= key(valid[i]) by {
        forall c | c in valid
          ensures key(c) <= key(valid[i])
        {
          var j :| 0 <= j < |valid| && valid[j] == c;
        }
      }
      assert valid[i] in valid;
      Some(valid[i])
    else
      assert valid == [];
      None
  }

  /**
    Position `k` of the input holds the earliest valid contour with the
    maximal score: valid, scoring at least as much as every valid contour,
    and strictly more than every valid contour before it.
  */
  predicate FirstMaximalValid(cs: seq<Shape>, scores: Shape -> Scores, k: int)
  {
    && 0 <= k < |cs| && ValidCnt(cs[k])
    && (forall j :: 0 <= j < |cs| && ValidCnt(cs[j]) ==> WeightedScore(scores(cs[j])) <= WeightedScore(scores(cs[k])))
    && (forall j :: 0 <= j < k && ValidCnt(cs[j]) ==> WeightedScore(scores(cs[j])) < WeightedScore(scores(cs[k])))
  }

  /** The contour chosen is the earliest valid contour of the input with the maximal score. */
  lemma BestIsFirstMaximal(cs: seq<Shape>, scores: Shape -> Scores)
    ensures BestContour(cs, scores).Some? ==>
      exists k :: FirstMaximalValid(cs, scores, k) && BestContour(cs, scores) == Some(cs[k])
  {
    var v := Valid(cs);
    if v != [] {
      var p := ValidPositions(cs);
      var key := (c: Shape) => WeightedScore(scores(c));
      var i := ArgMax(v, key);
      var k := p[i];
      assert v[i] == cs[k];
      forall j | 0 <= j < |cs| && ValidCnt(cs[j])
        ensures key(cs[j]) <= key(cs[k])
        ensures j < k ==> key(cs[j]) < key(cs[k])
      {
        var l :| 0 <= l < |p| && p[l] == j;
        assert v[l] == cs[j];
        if j < k {
          assert l < i;
        }
      }
      assert FirstMaximalValid(cs, scores, k);
    }
  }
}
