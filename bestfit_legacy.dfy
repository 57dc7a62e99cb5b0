/**
  The top-level gearbestfitcorners.py, the older variant of the corner
  finder: its top corners are the two least-y corners of each rectangle
  and its bottom corners the two greatest-y ones (a descending sort), both
  left in rectangle order; the left and right lines are chosen as in
  processing/gearbestfitcorners.py.
*/
module GearBestFitLegacy {

  import opened Common
  import opened Geometry
  import GearBestFit

  /** `sorted(rect, key=getY, reverse=True)[:2]`. */
  function BottomPair(rect: seq<Point>): seq<Point>
  {
    Take(SortBy(rect, NegY), 2)
  }

  function BottomPairs(rects: seq<seq<Point>>): (r: seq<seq<Point>>)
    ensures |r| == |rects| && forall i :: 0 <= i < |rects| ==> r[i] == BottomPair(rects[i])
  {
    seq(|rects|, i requires 0 <= i < |rects| => BottomPair(rects[i]))
  }

  /** `np.concatenate` of every rectangle's two least-y corners. */
  function TopCorners(rects: seq<seq<Point>>): seq<Point>
  {
    Concat(GearBestFit.TopPairs(rects))
  }

  /** `np.concatenate` of every rectangle's two greatest-y corners. */
  function BottomCorners(rects: seq<seq<Point>>): seq<Point>
  {
    Concat(BottomPairs(rects))
  }

  /** With four corners per rectangle, both lists hold two corners per rectangle. */
  lemma CornerCounts(rects: seq<seq<Point>>)
    requires forall i :: 0 <= i < |rects| ==> |rects[i]| == 4
    ensures |TopCorners(rects)| == 2 * |rects|
    ensures |BottomCorners(rects)| == 2 * |rects|
  {
    ConcatLength(GearBestFit.TopPairs(rects), 2);
    ConcatLength(BottomPairs(rects), 2);
  }

  /**
    The bottom pair comes from the rectangle and no other corner of the
    rectangle lies lower (has a greater y).
  */
  lemma BottomPairIsLowest(rect: seq<Point>)
    ensures multiset(BottomPair(rect)) <= multiset(rect)
    ensures forall p, q :: p in BottomPair(rect) && q in rect && q !in BottomPair(rect) ==> p.y >= q.y
  {
    GearBestFit.PairIsLeast(rect, NegY);
    forall p, q | p in BottomPair(rect) && q in rect && q !in BottomPair(rect)
      ensures p.y >= q.y
    {
      assert NegY(p) <= NegY(q);
    }
  }

  /**
    On a rectangle whose corners all share one y the two sorts keep the
    input order, so the top pair and the bottom pair are the same corners.
  */
  lemma TiedRowsOverlap(rect: seq<Point>)
    requires forall i :: 0 <= i < |rect| ==> rect[i].y == rect[0].y
    ensures GearBestFit.TopPair(rect) == BottomPair(rect) == Take(rect, 2)
  {
    assert forall i :: 0 <= i < |rect| ==> GetY(rect[i]) == GetY(rect[0]);
    assert forall i :: 0 <= i < |rect| ==> NegY(rect[i]) == NegY(rect[0]);
    SortByConstantKey(rect, GetY);
    SortByConstantKey(rect, NegY);
  }

  /** The divisions `get_lines` makes, as in the processing/ variant. */
  predicate LinesDefined(rects: seq<seq<Point>>)
  {
    && |rects| >= 2
    && FitDefined(TopCorners(rects)) && FitDefined(BottomCorners(rects))
    && GearBestFit.PairDefined(GearBestFit.LeftPair(rects))
    && GearBestFit.PairDefined(GearBestFit.RightPair(rects))
  }

  /** `get_lines`: [top, right, bottom, left]. */
  function GetLines(rects: seq<seq<Point>>): (lines: seq<Line>)
    requires LinesDefined(rects)
    ensures |lines| == 4
    ensures NormalEquations(MomentsOf(TopCorners(rects)), lines[0])
    ensures NormalEquations(MomentsOf(BottomCorners(rects)), lines[2])
    ensures OnLine(GearBestFit.LeftPair(rects)[0], lines[3]) && OnLine(GearBestFit.LeftPair(rects)[1], lines[3])
    ensures OnLine(GearBestFit.RightPair(rects)[0], lines[1]) && OnLine(GearBestFit.RightPair(rects)[1], lines[1])
  {
    [ CornerLine(TopCorners(rects)), GearBestFit.RightLine(rects),
      CornerLine(BottomCorners(rects)), GearBestFit.LeftLine(rects) ]
  }

  /** `get_gear_corners`: each line crossed with the next one, the last with the first. */
  function GearCorners(lines: seq<Line>): (corners: seq<Point>)
    requires |lines| == 4 && AdjacentNonParallel(lines)
    ensures |corners| == 4
    ensures forall i :: 0 <= i < 4 ==> OnLine(corners[i], lines[i]) && OnLine(corners[i], lines[(i + 1) % 4])
  {
    IntersectionPoints(lines)
  }

  /** Each corner is the only point on both of its lines. */
  lemma GearCornersUnique(lines: seq<Line>, i: int, q: Point)
    requires |lines| == 4 && AdjacentNonParallel(lines) && 0 <= i < 4
    requires OnLine(q, lines[i]) && OnLine(q, lines[(i + 1) % 4])
    ensures q == GearCorners(lines)[i]
  {
    assert CrossesNext(lines, i);
    var p := GearCorners(lines)[i];
    assert OnLine(p, lines[i]) && OnLine(p, lines[(i + 1) % 4]);
    IntersectionUnique(lines[i], lines[(i + 1) % 4], p, q);
  }

  lemma IntersectionUnique(l1: Line, l2: Line, p: Point, q: Point)
    requires l1.m != l2.m
    requires OnLine(p, l1) && OnLine(p, l2) && OnLine(q, l1) && OnLine(q, l2)
    ensures p == q
  {
    assert (p.x - q.x) * (l1.m - l2.m) == 0.0;
  }
}
