/**
  src/processing/stereo.py, `process` after corner detection: the eight
  corners seen by the left camera are paired by position with the eight
  seen by the right camera; the mean horizontal disparity gives the
  distance and the mean midpoint the lateral offset from the image centre
  column 240.
*/
module Stereo {

  import opened Common

  /** Corners each camera must report (two tape pieces of four corners). */
  const CornerCount := 8

  /** `7.25*585`: the lens distance times the focal length. */
  const Triangulation := 7.25 * 585.0

  /**
    A distance, or numpy's `inf`: dividing by a zero mean disparity gives
    infinity in numpy (with a warning) and the correction keeps it infinite.
  */
  datatype Distance = Finite(d: real) | Infinite

  datatype Reading = Reading(distance: Distance, offset: real)

  /** The sum of the pair midpoints (l.x + r.x) / 2 over the first |ls| pairs. */
  function MidSum(ls: seq<Point>, rs: seq<Point>): real
    requires |ls| == |rs|
  {
    if ls == [] then 0.0
    else MidSum(ls[..|ls| - 1], rs[..|rs| - 1]) + (ls[|ls| - 1].x + rs[|rs| - 1].x) / 2.0
  }

  /** The sum of the disparities |l.x - r.x| over the pairs. */
  function DispSum(ls: seq<Point>, rs: seq<Point>): (s: real)
    requires |ls| == |rs|
    ensures s >= 0.0
  {
    if ls == [] then 0.0
    else DispSum(ls[..|ls| - 1], rs[..|rs| - 1]) + Abs(ls[|ls| - 1].x - rs[|rs| - 1].x)
  }

  /** `distance = (7.25*585)/disparity`, then the linear correction. */
  function Corrected(disparity: real): Distance
  {
    if disparity == 0.0 then Infinite else Finite(1.8174 * (Triangulation / disparity) - 8.1707)
  }

  /** What `process` returns: nothing unless both cameras saw exactly eight corners. */
  function Reconstruct(ls: seq<Point>, rs: seq<Point>): Option<Reading>
  {
    if |ls| != CornerCount || |rs| != CornerCount then None
    else
      var disparity := DispSum(ls, rs) / 8.0;
      Some(Reading(Corrected(disparity), 240.0 - MidSum(ls, rs) / 8.0))
  }

  /** The loop of `process`, accumulating `average_x` and `average_disp` pair by pair. */
  method Process(cornersLeft: seq<Point>, cornersRight: seq<Point>) returns (r: Option<Reading>)
    ensures r == Reconstruct(cornersLeft, cornersRight)
  {
    if |cornersLeft| != 8 || |cornersRight| != 8 {
      return None;
    }
    var averageDisp := 0.0;
    var averageX := 0.0;
    var i := 0;
    while i < 8
      invariant 0 <= i <= 8
      invariant averageX == MidSum(cornersLeft[..i], cornersRight[..i])
      invariant averageDisp == DispSum(cornersLeft[..i], cornersRight[..i])
    {
      var left, right := cornersLeft[i], cornersRight[i];
      assert cornersLeft[..i + 1][..i] == cornersLeft[..i];
      assert cornersRight[..i + 1][..i] == cornersRight[..i];
      var subAverage := (left.x + right.x) / 2.0;
      averageX := averageX + subAverage;
      var disparity := Abs(left.x - right.x);
      averageDisp := averageDisp + disparity;
      i := i + 1;
    }
    assert cornersLeft[..8] == cornersLeft && cornersRight[..8] == cornersRight;
    var disparity := averageDisp / 8.0;
    averageX := averageX / 8.0;
    averageX := averageX - 240.0;
    averageX := -averageX;
    var distance: Distance;
    if disparity == 0.0 {
      distance := Infinite;
    } else {
      distance := Finite(1.8174 * ((7.25 * 585.0) / disparity) - 8.1707);
    }
    return Some(Reading(distance, averageX));
  }

  // ---------------------------------------------------------------------
  // Properties
  // ---------------------------------------------------------------------

  lemma {:induction false} SumsSymmetric(ls: seq<Point>, rs: seq<Point>)
    requires |ls| == |rs|
    ensures MidSum(ls, rs) == MidSum(rs, ls)
    ensures DispSum(ls, rs) == DispSum(rs, ls)
  {
    if ls != [] {
      SumsSymmetric(ls[..|ls| - 1], rs[..|rs| - 1]);
    }
  }

  /** Swapping the two cameras' corner lists changes neither output. */
  lemma SwapSymmetric(ls: seq<Point>, rs: seq<Point>)
    ensures Reconstruct(ls, rs) == Reconstruct(rs, ls)
  {
    if |ls| == 8 && |rs| == 8 {
      SumsSymmetric(ls, rs);
    }
  }

  /** The x coordinates of a corner list. */
  function Xs(ps: seq<Point>): (xs: seq<real>)
    ensures |xs| == |ps| && forall i :: 0 <= i < |ps| ==> xs[i] == ps[i].x
  {
    seq(|ps|, i requires 0 <= i < |ps| => ps[i].x)
  }

  lemma {:induction false} SumsUseOnlyX(ls: seq<Point>, rs: seq<Point>, ls': seq<Point>, rs': seq<Point>)
    requires |ls| == |rs| && Xs(ls) == Xs(ls') && Xs(rs) == Xs(rs')
    ensures MidSum(ls, rs) == MidSum(ls', rs') && DispSum(ls, rs) == DispSum(ls', rs')
  {
    if ls != [] {
      var n := |ls| - 1;
      assert Xs(ls[..n]) == Xs(ls'[..n]) && Xs(rs[..n]) == Xs(rs'[..n]);
      assert ls[n].x == Xs(ls)[n] == ls'[n].x && rs[n].x == Xs(rs)[n] == rs'[n].x;
      SumsUseOnlyX(ls[..n], rs[..n], ls'[..n], rs'[..n]);
    }
  }

  /** The y coordinates are never read: corners with the same x give the same reading. */
  lemma OnlyXMatters(ls: seq<Point>, rs: seq<Point>, ls': seq<Point>, rs': seq<Point>)
    requires Xs(ls) == Xs(ls') && Xs(rs) == Xs(rs')
    ensures Reconstruct(ls, rs) == Reconstruct(ls', rs')
  {
    if |ls| == 8 && |rs| == 8 {
      SumsUseOnlyX(ls, rs, ls', rs');
    }
  }

  /** A zero total disparity means every pair shares its x. */
  lemma {:induction false} DispSumZero(ls: seq<Point>, rs: seq<Point>)
    requires |ls| == |rs|
    ensures DispSum(ls, rs) == 0.0 <==> forall i :: 0 <= i < |ls| ==> ls[i].x == rs[i].x
  {
    if ls != [] {
      var n := |ls| - 1;
      DispSumZero(ls[..n], rs[..n]);
      assert forall i :: 0 <= i < n ==> ls[..n][i] == ls[i] && rs[..n][i] == rs[i];
    }
  }

  /**
    The distance is infinite exactly when the two cameras report every
    corner at the same x; otherwise it is finite.
  */
  lemma InfiniteExactlyWithoutDisparity(ls: seq<Point>, rs: seq<Point>)
    requires |ls| == 8 && |rs| == 8
    ensures Reconstruct(ls, rs).value.distance.Infinite? <==> forall i :: 0 <= i < 8 ==> ls[i].x == rs[i].x
  {
    DispSumZero(ls, rs);
  }

  lemma {:induction false} ShiftedSums(ls: seq<Point>, rs: seq<Point>, d: real)
    requires |ls| == |rs|
    requires forall i :: 0 <= i < |ls| ==> rs[i].x == ls[i].x + d
    ensures DispSum(ls, rs) == |ls| as real * Abs(d)
  {
    if ls != [] {
      var n := |ls| - 1;
      assert forall i :: 0 <= i < n ==> rs[..n][i].x == ls[..n][i].x + d;
      ShiftedSums(ls[..n], rs[..n], d);
      assert Abs(ls[n].x - rs[n].x) == Abs(d);
    }
  }

  /**
    When every right corner is its left corner moved by the same d != 0,
    the uncorrected distance is 7.25*585 / |d| = 4241.25 / |d|.
  */
  lemma UniformShift(ls: seq<Point>, rs: seq<Point>, d: real)
    requires |ls| == 8 && |rs| == 8 && d != 0.0
    requires forall i :: 0 <= i < 8 ==> rs[i].x == ls[i].x + d
    ensures Reconstruct(ls, rs).value.distance == Finite(1.8174 * (4241.25 / Abs(d)) - 8.1707)
  {
    ShiftedSums(ls, rs, d);
    assert DispSum(ls, rs) / 8.0 == Abs(d);
  }
}
