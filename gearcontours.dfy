/**
  The contour-based gear target finder: contours are taken in order of
  decreasing area, and the first two whose polygon approximation (at 2% of
  the perimeter) has four vertices are kept, provided the second is above
  90% of the first's area. processing/gearcontours.py and gearcontours.py
  run the same loop and return the approximations; gearcontours2.py also
  returns the contours and converts each approximation to (x, y) tuples.
  The line helpers these files carry are the ones of module Geometry.
*/
module GearContours {

  import opened Common
  import Geometry
  import TapeContours

  /** After the first rectangle, the next must be above this fraction of its area. */
  const MinPercent: real := 0.9

  /** `TARGET_SCALE`, and the tape's 10-1/4 by 5 inch footprint scaled by it. */
  const TargetScale: real := 10.0
  const TargetWidth: real := 10.25 * TargetScale
  const TargetHeight: real := 5.0 * TargetScale

  /**
    What the loop reads of a contour: `cv2.contourArea`, and the result of
    `cv2.approxPolyDP(c, 0.02 * perimeter, True)`, an array of [[x, y]] rows.
  */
  datatype GearContour = GearContour(area: TapeContours.Area, approx: TapeContours.CvPoints)

  /** The approximation has four corners. */
  predicate Quad(c: GearContour)
  {
    |c.approx| == 4
  }

  /** The key of `sorted(cnt, key=cv2.contourArea, reverse=True)`. */
  function NegContourArea(c: GearContour): real
  {
    -(c.area as real)
  }

  /** The contours the loop visits, largest first. */
  function ByAreaDescending(cnts: seq<GearContour>): (s: seq<GearContour>)
  {
    SortBy(cnts, NegContourArea)
  }

  /** The visiting order is a reordering of the contours by decreasing area. */
  lemma AreaDescending(cnts: seq<GearContour>)
    ensures multiset(ByAreaDescending(cnts)) == multiset(cnts)
    ensures var s := ByAreaDescending(cnts);
      forall i, j :: 0 <= i < j < |s| ==> s[i].area >= s[j].area
  {
    SortByBag(cnts, NegContourArea);
    var s := ByAreaDescending(cnts);
    assert forall i, j :: 0 <= i < j < |s| ==> NegContourArea(s[i]) <= NegContourArea(s[j]);
  }

  datatype Found<C> = Found(contours: seq<GearContour>, corners: seq<C>)

  /** `ratio > MIN_PERCENT`: `c` is large enough beside the first contour kept. */
  predicate AboveRatio(c: GearContour, first: GearContour)
    requires first.area != 0.0
  {
    c.area / first.area > MinPercent
  }

  /** The contours the loop keeps, or the division by zero it stops at. */
  datatype Pick = Picked(cs: seq<GearContour>) | ZeroArea

  /**
    The loop from position `i` on, with the contours `found` kept so far:
    a later contour is first compared with the one kept (and the division
    raises when that one has zero area), then kept when it has four corners.
  */
  function Scan(s: seq<GearContour>, i: nat, found: seq<GearContour>): (r: Pick)
    requires i <= |s| && |found| <= 1
    requires forall k :: 0 <= k < |found| ==> Quad(found[k]) && found[k] in s
    ensures r.Picked? ==> found <= r.cs && |r.cs| <= 2
    ensures r.Picked? ==> forall k :: 0 <= k < |r.cs| ==> Quad(r.cs[k]) && r.cs[k] in s
    decreases |s| - i
  {
    if i == |s| then Picked(found)
    else if |found| == 1 && found[0].area == 0.0 then ZeroArea
    else if |found| == 1 && !AboveRatio(s[i], found[0]) then Picked(found)
    else if Quad(s[i]) then
      if |found| == 1 then Picked(found + [s[i]]) else Scan(s, i + 1, [s[i]])
    else Scan(s, i + 1, found)
  }

  function Approxes(cs: seq<GearContour>): (r: seq<TapeContours.CvPoints>)
    ensures |r| == |cs| && forall k :: 0 <= k < |cs| ==> r[k] == cs[k].approx
  {
    seq(|cs|, k requires 0 <= k < |cs| => cs[k].approx)
  }

  /** What the loop leaves in `foundContours` and `foundCorners`, or the error it raises. */
  function Selection(s: seq<GearContour>): (r: Outcome<Found<TapeContours.CvPoints>>)
    ensures r.Returned? ==>
      && |r.value.contours| <= 2 && |r.value.corners| == |r.value.contours|
      && forall k :: 0 <= k < |r.value.contours| ==>
           Quad(r.value.contours[k]) && r.value.contours[k] in s
           && r.value.corners[k] == r.value.contours[k].approx
  {
    match Scan(s, 0, [])
    case ZeroArea => ZeroDivisionError
    case Picked(cs) => Returned(Found(cs, Approxes(cs)))
  }

  /**
    `process_image` from the contour list on: sort by decreasing area, then
    keep at most two four-corner contours, the second above 90% of the
    first's area.
  */
  method SelectRectangles(cnts: seq<GearContour>) returns (r: Outcome<Found<TapeContours.CvPoints>>)
    ensures r == Selection(ByAreaDescending(cnts))
  {
    var sortedContours := ByAreaDescending(cnts);
    var foundContours: seq<GearContour> := [];
    var foundCorners: seq<TapeContours.CvPoints> := [];
    var i := 0;
    while i < |sortedContours|
      invariant 0 <= i <= |sortedContours| && |foundContours| <= 1
      invariant forall k :: 0 <= k < |foundContours| ==> Quad(foundContours[k]) && foundContours[k] in sortedContours
      invariant Scan(sortedContours, 0, []) == Scan(sortedContours, i, foundContours)
      invariant foundCorners == Approxes(foundContours)
    {
      var c := sortedContours[i];
      if |foundContours| == 1 {
        if foundContours[0].area == 0.0 {
          return ZeroDivisionError;
        }
        var ratio := c.area / foundContours[0].area;
        if ratio <= MinPercent {
          break;
        }
      }
      if |c.approx| == 4 {
        foundContours := foundContours + [c];
        foundCorners := foundCorners + [c.approx];
        assert foundCorners == Approxes(foundContours);
        if |foundContours| == 2 {
          break;
        }
        assert foundContours == [c];
      }
      i := i + 1;
    }
    return Returned(Found(foundContours, foundCorners));
  }

  /**
    `get_tape_contours_and_corners` of gearcontours2.py: the same loop,
    saving each approximation as a list of point tuples.
  */
  method TapeContoursAndCorners(cnts: seq<GearContour>) returns (r: Outcome<Found<seq<Point>>>)
    ensures r.ZeroDivisionError? <==> Selection(ByAreaDescending(cnts)).ZeroDivisionError?
    ensures r.Returned? ==>
      && r.value.contours == Selection(ByAreaDescending(cnts)).value.contours
      && |r.value.corners| == |r.value.contours|
      && forall k :: 0 <= k < |r.value.corners| ==>
           r.value.corners[k] == TapeContours.CornersToTuples(r.value.contours[k].approx)
  {
    var selected := SelectRectangles(cnts);
    if selected.ZeroDivisionError? {
      return ZeroDivisionError;
    }
    var foundContours := selected.value.contours;
    var foundCorners: seq<seq<Point>> := [];
    var k := 0;
    while k < |foundContours|
      invariant 0 <= k <= |foundContours| && |foundCorners| == k
      invariant forall j :: 0 <= j < k ==> foundCorners[j] == TapeContours.CornersToTuples(foundContours[j].approx)
    {
      foundCorners := foundCorners + [TapeContours.CornersToTuples(foundContours[k].approx)];
      k := k + 1;
    }
    return Returned(Found(foundContours, foundCorners));
  }

  /** `get_target_corners` for the 102.5 by 50 target. */
  function GearTargetCorners(w: int, h: int): (r: seq<Point>)
    ensures |r| == 4
    ensures r[0] == Point(w as real / 2.0 + 51.25, h as real / 2.0 - 25.0)
    ensures r[2] == Point(w as real / 2.0 - 51.25, h as real / 2.0 + 25.0)
    ensures r[1] == Point(r[0].x, r[2].y) && r[3] == Point(r[2].x, r[0].y)
  {
    Geometry.TargetCorners(w, h, TargetWidth, TargetHeight)
  }

  // ---------------------------------------------------------------------
  // Properties of the selection
  // ---------------------------------------------------------------------


  /** `q` is the first four-corner contour from position `i` on. */
  predicate FirstQuadFrom(s: seq<GearContour>, i: int, q: int)
  {
    0 <= i <= q < |s| && Quad(s[q]) && forall j :: i <= j < q ==> !Quad(s[j])
  }

  lemma FirstQuadUnique(s: seq<GearContour>, i: int, q: int, q': int)
    requires FirstQuadFrom(s, i, q) && FirstQuadFrom(s, i, q')
    ensures q == q'
  {
  }

  /**
    Before anything is kept the loop only looks for a four-corner contour:
    it keeps nothing exactly when there is none, and otherwise goes on
    from the first one.
  */
  lemma {:induction false} ScanUntilFirst(s: seq<GearContour>, i: nat)
    requires i <= |s|
    ensures Scan(s, i, []) == Picked([]) <==> forall j :: i <= j < |s| ==> !Quad(s[j])
    ensures Scan(s, i, []) != Picked([]) ==>
      exists q :: FirstQuadFrom(s, i, q) && Scan(s, i, []) == Scan(s, q + 1, [s[q]])
    decreases |s| - i
  {
    if i < |s| {
      if Quad(s[i]) {
        assert FirstQuadFrom(s, i, i);
        assert Scan(s, i, []) != Picked([]) by {
          assert Scan(s, i, []) == Scan(s, i + 1, [s[i]]);
          if Scan(s, i + 1, [s[i]]).Picked? {
            assert [s[i]] <= Scan(s, i + 1, [s[i]]).cs;
          }
        }
      } else {
        ScanUntilFirst(s, i + 1);
        if Scan(s, i, []) != Picked([]) {
          var q :| FirstQuadFrom(s, i + 1, q) && Scan(s, i + 1, []) == Scan(s, q + 1, [s[q]]);
          assert FirstQuadFrom(s, i, q);
        }
      }
    }
  }

  /**
    Once contour `k` is kept the loop raises exactly when `k` has zero area
    and some contour is left to compare with it.
  */
  lemma {:induction false} AfterFirstRaises(s: seq<GearContour>, i: nat, k: nat)
    requires k < i <= |s| && Quad(s[k])
    ensures Scan(s, i, [s[k]]) == ZeroArea <==> s[k].area == 0.0 && i < |s|
    decreases |s| - i
  {
    if i < |s| && s[k].area != 0.0 && AboveRatio(s[i], s[k]) && !Quad(s[i]) {
      AfterFirstRaises(s, i + 1, k);
    }
  }

  /**
    The second contour kept after `k` sits at position `q`: the first
    four-corner contour from `i` on, with it and every contour before it
    above 90% of `k`'s area.
  */
  predicate SecondAt(s: seq<GearContour>, k: int, i: int, q: int)
  {
    && 0 <= k < |s| && s[k].area != 0.0 && FirstQuadFrom(s, i, q)
    && forall j :: i <= j <= q ==> AboveRatio(s[j], s[k])
  }

  lemma {:induction false} AfterFirstSecond(s: seq<GearContour>, i: nat, k: nat)
    requires k < i <= |s| && Quad(s[k])
    requires Scan(s, i, [s[k]]).Picked? && |Scan(s, i, [s[k]]).cs| == 2
    ensures exists q :: SecondAt(s, k, i, q) && Scan(s, i, [s[k]]).cs == [s[k], s[q]]
    decreases |s| - i
  {
    if Quad(s[i]) {
      assert SecondAt(s, k, i, i);
    } else {
      AfterFirstSecond(s, i + 1, k);
      var q :| SecondAt(s, k, i + 1, q) && Scan(s, i + 1, [s[k]]).cs == [s[k], s[q]];
      assert SecondAt(s, k, i, q);
    }
  }

  /**
    From position `i` on, the loop passes over contours without four
    corners that are above 90% of `k`'s area, and stops at position `t`
    (the end of the list, or a contour at or below 90%).
  */
  predicate StopsAt(s: seq<GearContour>, k: int, i: int, t: int)
  {
    && 0 <= k < |s| && s[k].area != 0.0 && 0 <= i <= t <= |s|
    && (forall j :: i <= j < t ==> !Quad(s[j]) && AboveRatio(s[j], s[k]))
    && (t < |s| ==> !AboveRatio(s[t], s[k]))
  }

  /**
    When nothing more is kept after `k` and contours were left to compare,
    the loop ran out of contours or stopped at the first one at or below
    90% of `k`'s area, with no four-corner contour before it.
  */
  lemma {:induction false} AfterFirstAlone(s: seq<GearContour>, i: nat, k: nat)
    requires k < i < |s| && Quad(s[k])
    requires Scan(s, i, [s[k]]) == Picked([s[k]])
    ensures exists t :: StopsAt(s, k, i, t)
    decreases |s| - i
  {
    if !AboveRatio(s[i], s[k]) {
      assert StopsAt(s, k, i, i);
    } else if i + 1 == |s| {
      assert !Quad(s[i]);
      assert StopsAt(s, k, i, i + 1);
    } else {
      assert !Quad(s[i]) && Scan(s, i, [s[k]]) == Scan(s, i + 1, [s[k]]);
      AfterFirstAlone(s, i + 1, k);
      var t :| StopsAt(s, k, i + 1, t);
      assert StopsAt(s, k, i, t);
    }
  }

  /**
    The error case: the loop raises `ZeroDivisionError` exactly when the
    largest four-corner contour has zero area and is not the last contour.
  */
  lemma ZeroDivisionExactly(s: seq<GearContour>)
    ensures Selection(s) == ZeroDivisionError <==>
      exists q :: FirstQuadFrom(s, 0, q) && s[q].area == 0.0 && q + 1 < |s|
  {
    ScanUntilFirst(s, 0);
    if Scan(s, 0, []) != Picked([]) {
      var q :| FirstQuadFrom(s, 0, q) && Scan(s, 0, []) == Scan(s, q + 1, [s[q]]);
      AfterFirstRaises(s, q + 1, q);
      forall q' | FirstQuadFrom(s, 0, q')
        ensures q' == q
      {
        FirstQuadUnique(s, 0, q, q');
      }
    }
  }

  /** Nothing is kept exactly when no contour has a four-corner approximation. */
  lemma NoneKept(s: seq<GearContour>)
    ensures Selection(s) == Returned(Found([], [])) <==> forall j :: 0 <= j < |s| ==> !Quad(s[j])
  {
    ScanUntilFirst(s, 0);
    if Scan(s, 0, []).Picked? && Scan(s, 0, []).cs == [] {
      assert Scan(s, 0, []) == Picked([]);
    }
  }

  /** The first contour kept is the largest one with four corners. */
  lemma FirstKept(s: seq<GearContour>, q: int)
    requires FirstQuadFrom(s, 0, q)
    requires Selection(s).Returned?
    ensures Selection(s).value.contours != [] && Selection(s).value.contours[0] == s[q]
  {
    ScanUntilFirst(s, 0);
    assert Scan(s, 0, []) != Picked([]);
    var q' :| FirstQuadFrom(s, 0, q') && Scan(s, 0, []) == Scan(s, q' + 1, [s[q']]);
    FirstQuadUnique(s, 0, q, q');
    assert [s[q]] <= Scan(s, 0, []).cs;
  }

  /**
    A second contour kept is the next four-corner contour after the first,
    and every contour after the first up to it is above 90% of the first's
    area.
  */
  lemma SecondKept(s: seq<GearContour>, q: int)
    requires FirstQuadFrom(s, 0, q)
    requires Selection(s).Returned? && |Selection(s).value.contours| == 2
    ensures exists q' :: SecondAt(s, q, q + 1, q') && Selection(s).value.contours == [s[q], s[q']]
  {
    ScanUntilFirst(s, 0);
    var q1 :| FirstQuadFrom(s, 0, q1) && Scan(s, 0, []) == Scan(s, q1 + 1, [s[q1]]);
    FirstQuadUnique(s, 0, q, q1);
    AfterFirstSecond(s, q + 1, q);
  }

  /**
    After the first contour is kept the scan halts at the first later
    contour at or below 90% of its area: nothing from there on is kept.
  */
  lemma RatioStops(s: seq<GearContour>, q: int, t: int)
    requires FirstQuadFrom(s, 0, q) && q < t < |s| && s[q].area != 0.0
    requires !AboveRatio(s[t], s[q])
    requires forall j :: q < j < t ==> !Quad(s[j])
    ensures Selection(s) == Returned(Found([s[q]], [s[q].approx]))
  {
    ScanUntilFirst(s, 0);
    var q1 :| FirstQuadFrom(s, 0, q1) && Scan(s, 0, []) == Scan(s, q1 + 1, [s[q1]]);
    FirstQuadUnique(s, 0, q, q1);
    KeptAlone(s, q, t);
    assert Approxes([s[q]]) == [s[q].approx];
  }

  /** The scan after the kept contour `q` ends with `q` alone when it meets `t` first. */
  lemma KeptAlone(s: seq<GearContour>, q: int, t: int)
    requires 0 <= q < t < |s| && Quad(s[q]) && s[q].area != 0.0
    requires !AboveRatio(s[t], s[q])
    requires forall j :: q < j < t ==> !Quad(s[j])
    ensures Scan(s, q + 1, [s[q]]) == Picked([s[q]])
  {
    AfterFirstRaises(s, q + 1, q);
    var r := Scan(s, q + 1, [s[q]]);
    assert r.Picked? && [s[q]] <= r.cs;
    if |r.cs| == 2 {
      AfterFirstSecond(s, q + 1, q);
    }
    assert r.cs == [s[q]] by {
      assert |r.cs| == 1 && r.cs[0] == s[q];
    }
  }

  /** The kept contours come from the input, in order of decreasing area. */
  lemma SelectedInAreaOrder(cnts: seq<GearContour>)
    requires Selection(ByAreaDescending(cnts)).Returned?
    ensures var f := Selection(ByAreaDescending(cnts)).value;
      && (forall k :: 0 <= k < |f.contours| ==> f.contours[k] in cnts)
      && (|f.contours| == 2 ==> f.contours[0].area >= f.contours[1].area)
  {
    var s := ByAreaDescending(cnts);
    AreaDescending(cnts);
    var f := Selection(s).value;
    forall k | 0 <= k < |f.contours|
      ensures f.contours[k] in cnts
    {
      assert f.contours[k] in multiset(s);
    }
    if |f.contours| == 2 {
      ScanUntilFirst(s, 0);
      var q :| FirstQuadFrom(s, 0, q) && Scan(s, 0, []) == Scan(s, q + 1, [s[q]]);
      SecondKept(s, q);
      var q' :| SecondAt(s, q, q + 1, q') && f.contours == [s[q], s[q']];
    }
  }

  /**
    The corners gearcontours2.py saves give back the approximations they
    came from.
  */
  lemma TuplesRecoverApprox(cnts: seq<GearContour>, k: nat)
    requires Selection(ByAreaDescending(cnts)).Returned?
    requires k < |Selection(ByAreaDescending(cnts)).value.contours|
    ensures var c := Selection(ByAreaDescending(cnts)).value.contours[k];
      TapeContours.TuplesToCorners(TapeContours.CornersToTuples(c.approx)) == c.approx
  {
    var c := Selection(ByAreaDescending(cnts)).value.contours[k];
    TapeContours.CornersTuplesRoundTrip(c.approx, []);
  }
}
