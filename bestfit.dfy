/**
  processing/gearbestfitcorners.py: the outside corners of the two gear
  tape pieces, found by fitting a line to the top corners, one to the
  bottom corners, one through the outer left pair and one through the
  outer right pair, and intersecting neighbouring lines.
*/
module GearBestFit {

  import opened Common
  import opened Geometry
  import TapeContours

  /** The two least-y corners of one rectangle (stable ascending sort by y). */
  function TopPair(rect: seq<Point>): seq<Point>
  {
    Take(SortBy(rect, GetY), 2)
  }

  /** The other corners of the rectangle: `sorted(rect, key=getY)[2:]`. */
  function BottomRest(rect: seq<Point>): seq<Point>
  {
    Drop(SortBy(rect, GetY), 2)
  }

  function TopPairs(rects: seq<seq<Point>>): (r: seq<seq<Point>>)
    ensures |r| == |rects| && forall i :: 0 <= i < |rects| ==> r[i] == TopPair(rects[i])
  {
    seq(|rects|, i requires 0 <= i < |rects| => TopPair(rects[i]))
  }

  function BottomRests(rects: seq<seq<Point>>): (r: seq<seq<Point>>)
    ensures |r| == |rects| && forall i :: 0 <= i < |rects| ==> r[i] == BottomRest(rects[i])
  {
    seq(|rects|, i requires 0 <= i < |rects| => BottomRest(rects[i]))
  }

  /** `get_top_corners`: every rectangle's two highest corners, sorted by x. */
  function TopCorners(rects: seq<seq<Point>>): (r: seq<Point>)
    ensures SortedBy(r, GetX)
    ensures multiset(r) == ConcatBag(TopPairs(rects))
  {
    ConcatBagIsMultiset(TopPairs(rects));
    SortByBag(Concat(TopPairs(rects)), GetX);
    SortBy(Concat(TopPairs(rects)), GetX)
  }

  /** `get_bottom_corners`: every rectangle's remaining corners, sorted by x. */
  function BottomCorners(rects: seq<seq<Point>>): (r: seq<Point>)
    ensures SortedBy(r, GetX)
    ensures multiset(r) == ConcatBag(BottomRests(rects))
  {
    ConcatBagIsMultiset(BottomRests(rects));
    SortByBag(Concat(BottomRests(rects)), GetX);
    SortBy(Concat(BottomRests(rects)), GetX)
  }

  /** Within a rectangle no top corner lies below a bottom corner. */
  lemma TopAboveBottom(rect: seq<Point>)
    ensures forall p, q :: p in TopPair(rect) && q in BottomRest(rect) ==> p.y <= q.y
  {
    var s := SortBy(rect, GetY);
    forall p, q | p in TopPair(rect) && q in BottomRest(rect)
      ensures p.y <= q.y
    {
      var i :| 0 <= i < |TopPair(rect)| && TopPair(rect)[i] == p;
      var j :| 0 <= j < |BottomRest(rect)| && BottomRest(rect)[j] == q;
      assert s[i] == p && s[j + 2] == q;
    }
  }

  /** Top and bottom corners together are exactly the corners of all rectangles. */
  lemma {:induction false} TopBottomPartition(rects: seq<seq<Point>>)
    ensures multiset(TopCorners(rects)) + multiset(BottomCorners(rects)) == ConcatBag(rects)
  {
    PairsRestsBag(rects);
  }

  lemma {:induction false} PairsRestsBag(rects: seq<seq<Point>>)
    ensures ConcatBag(TopPairs(rects)) + ConcatBag(BottomRests(rects)) == ConcatBag(rects)
  {
    if rects != [] {
      PairsRestsBag(rects[1..]);
      assert TopPairs(rects)[1..] == TopPairs(rects[1..]);
      assert BottomRests(rects)[1..] == BottomRests(rects[1..]);
      var s := SortBy(rects[0], GetY);
      SortByBag(rects[0], GetY);
      assert Take(s, 2) + Drop(s, 2) == s;
      assert multiset(TopPair(rects[0])) + multiset(BottomRest(rects[0])) == multiset(rects[0]);
    }
  }

  /** With four corners per rectangle, both lists hold two corners per rectangle. */
  lemma CornerCounts(rects: seq<seq<Point>>)
    requires forall i :: 0 <= i < |rects| ==> |rects[i]| == 4
    ensures |TopCorners(rects)| == 2 * |rects|
    ensures |BottomCorners(rects)| == 2 * |rects|
  {
    ConcatLength(TopPairs(rects), 2);
    ConcatLength(BottomRests(rects), 2);
  }

  // ---------------------------------------------------------------------
  // get_lines
  // ---------------------------------------------------------------------

  /** `lambda r: r[0][0]`, the x of a rectangle's first corner. */
  function FirstX(rect: seq<Point>): real
  {
    if rect == [] then 0.0 else rect[0].x
  }

  /** The rectangles ordered by their first corner's x. */
  function SortedRects(rects: seq<seq<Point>>): (r: seq<seq<Point>>)
    ensures |r| == |rects| && multiset(r) == multiset(rects)
    ensures SortedBy(r, FirstX)
  {
    SortByBag(rects, FirstX);
    SortBy(rects, FirstX)
  }

  /** The two smallest-x corners of the leftmost rectangle. */
  function LeftPair(rects: seq<seq<Point>>): (p: seq<Point>)
    requires |rects| >= 2
    ensures HasPairs(rects) ==> |p| == 2
  {
    assert SortedRects(rects)[0] in multiset(rects);
    Take(SortBy(SortedRects(rects)[0], GetX), 2)
  }

  /** The two largest-x corners of the other rectangle. */
  function RightPair(rects: seq<seq<Point>>): (p: seq<Point>)
    requires |rects| >= 2
    ensures HasPairs(rects) ==> |p| == 2
  {
    assert SortedRects(rects)[1] in multiset(rects);
    Take(SortBy(SortedRects(rects)[1], NegX), 2)
  }

  /** The two corners `get_two_corner_line` divides by: two of them, with distinct x. */
  predicate PairDefined(ps: seq<Point>)
  {
    |ps| == 2 && ps[0].x != ps[1].x
  }

  /**
    What `get_lines` needs to divide safely: two rectangles to tell left
    from right, a first corner in each, a non-degenerate best fit on top
    and bottom, and distinct x within the outer pairs.
  */
  predicate LinesDefined(rects: seq<seq<Point>>)
  {
    && |rects| >= 2
    && (forall i :: 0 <= i < |rects| ==> rects[i] != [])
    && FitDefined(TopCorners(rects)) && FitDefined(BottomCorners(rects))
    && PairDefined(LeftPair(rects)) && PairDefined(RightPair(rects))
  }

  /** The line through the outer left pair. */
  function LeftLine(rects: seq<seq<Point>>): (l: Line)
    requires |rects| >= 2 && PairDefined(LeftPair(rects))
    ensures OnLine(LeftPair(rects)[0], l) && OnLine(LeftPair(rects)[1], l)
  {
    TwoCornerLine(LeftPair(rects))
  }

  /** The line through the outer right pair. */
  function RightLine(rects: seq<seq<Point>>): (l: Line)
    requires |rects| >= 2 && PairDefined(RightPair(rects))
    ensures OnLine(RightPair(rects)[0], l) && OnLine(RightPair(rects)[1], l)
  {
    TwoCornerLine(RightPair(rects))
  }

  /** `get_lines`: [top, right, bottom, left]. */
  function GetLines(rects: seq<seq<Point>>): (lines: seq<Line>)
    requires LinesDefined(rects)
    ensures |lines| == 4
    ensures NormalEquations(MomentsOf(TopCorners(rects)), lines[0])
    ensures NormalEquations(MomentsOf(BottomCorners(rects)), lines[2])
    ensures OnLine(LeftPair(rects)[0], lines[3]) && OnLine(LeftPair(rects)[1], lines[3])
    ensures OnLine(RightPair(rects)[0], lines[1]) && OnLine(RightPair(rects)[1], lines[1])
  {
    assert PairDefined(LeftPair(rects)) && PairDefined(RightPair(rects));
    var top, bottom := CornerLine(TopCorners(rects)), CornerLine(BottomCorners(rects));
    [top, RightLine(rects), bottom, LeftLine(rects)]
  }

  /**
    The left line runs through the two smallest-x corners of the
    rectangle whose first corner has the smallest x; the right line
    through the two largest-x corners of the next rectangle in that order.
  */
  lemma GetLinesSides(rects: seq<seq<Point>>)
    requires |rects| >= 2
    ensures forall j :: 0 <= j < |rects| ==> FirstX(SortedRects(rects)[0]) <= FirstX(rects[j])
    ensures multiset(LeftPair(rects)) <= multiset(SortedRects(rects)[0])
    ensures forall p, q :: p in LeftPair(rects) && q in SortedRects(rects)[0] && q !in LeftPair(rects) ==> p.x <= q.x
    ensures multiset(RightPair(rects)) <= multiset(SortedRects(rects)[1])
    ensures forall p, q :: p in RightPair(rects) && q in SortedRects(rects)[1] && q !in RightPair(rects) ==> p.x >= q.x
  {
    var sr := SortedRects(rects);
    forall j | 0 <= j < |rects|
      ensures FirstX(sr[0]) <= FirstX(rects[j])
    {
      SortedHeadIsLeast(rects, FirstX, rects[j]);
    }
    var lp, rp := LeftPair(rects), RightPair(rects);
    PairIsLeast(sr[0], GetX);
    PairIsLeast(sr[1], NegX);
    forall p, q | p in lp && q in sr[0] && q !in lp
      ensures p.x <= q.x
    {
      assert GetX(p) <= GetX(q);
    }
    forall p, q | p in rp && q in sr[1] && q !in rp
      ensures p.x >= q.x
    {
      assert NegX(p) <= NegX(q);
    }
  }

  /** The first two elements of a sort are elements and have the least keys. */
  lemma PairIsLeast(s: seq<Point>, key: Point -> real)
    ensures multiset(Take(SortBy(s, key), 2)) <= multiset(s)
    ensures forall p, q :: p in Take(SortBy(s, key), 2) && q in s && q !in Take(SortBy(s, key), 2) ==>
              key(p) <= key(q)
  {
    var o := SortBy(s, key);
    SortByBag(s, key);
    var t := Take(o, 2);
    assert t + Drop(o, 2) == o;
    assert multiset(t) + multiset(Drop(o, 2)) == multiset(s);
    forall p, q | p in t && q in s && q !in t
      ensures key(p) <= key(q)
    {
      var i :| 0 <= i < |t| && t[i] == p;
      assert q in multiset(o);
      var j :| 0 <= j < |o| && o[j] == q;
      assert forall k :: 0 <= k < |t| ==> t[k] == o[k];
      assert j >= |t|;
      assert o[i] == p;
    }
  }

  /** `get_outside_corners`: the crossings of neighbouring lines of `get_lines`. */
  function OutsideCorners(rects: seq<seq<Point>>): (corners: seq<Point>)
    requires LinesDefined(rects) && AdjacentNonParallel(GetLines(rects))
    ensures |corners| == 4
    ensures var l := GetLines(rects);
      && OnLine(corners[0], l[0]) && OnLine(corners[0], l[1])
      && OnLine(corners[1], l[1]) && OnLine(corners[1], l[2])
      && OnLine(corners[2], l[2]) && OnLine(corners[2], l[3])
      && OnLine(corners[3], l[3]) && OnLine(corners[3], l[0])
  {
    var l := GetLines(rects);
    var c := IntersectionPoints(l);
    assert OnLine(c[3], l[(3 + 1) % 4]);
    c
  }

  // ---------------------------------------------------------------------
  // The bounding boxes of is_tape never meet get_lines' conditions
  // ---------------------------------------------------------------------

  /**
    The corners of a bounding box sorted by x start with its two left
    corners, which share x; sorted by descending x they start with the two
    right corners, which share x too.
  */
  lemma BoxPairsVertical(c: TapeContours.Contour)
    ensures var b := TapeContours.TapeCorners(c);
      && Take(SortBy(b, GetX), 2)[0].x == Take(SortBy(b, GetX), 2)[1].x
      && Take(SortBy(b, NegX), 2)[0].x == Take(SortBy(b, NegX), 2)[1].x
  {
    var b := TapeContours.TapeCorners(c);
    assert SortedBy(b, GetX);
    SortBySorted(b, GetX);
    SortBoxDescending(b[0], b[1], b[2], b[3]);
    assert b == [b[0], b[1], b[2], b[3]];
  }

  /**
    Stable descending sort of a box listed left, left, right, right: the
    two right corners come first, in their original order.
  */
  lemma SortBoxDescending(a: Point, b: Point, c: Point, d: Point)
    requires a.x == b.x < c.x == d.x
    ensures SortBy([a, b, c, d], NegX) == [c, d, a, b]
  {
    assert [a, b, c, d] == [a] + [b, c, d];
    SortByCons(a, [b, c, d]);
    SortRightPair(b, c, d);
    InsertPast(a, [c, d, b], NegX);
    assert [c, d, b][1..] == [d, b];
    InsertPast(a, [d, b], NegX);
    assert [d, b][1..] == [b];
    InsertFront(a, [b], NegX);
    FourDisplay(c, d, a, b);
  }

  /** The last three corners of the box sort to the right pair, then `b`. */
  lemma SortRightPair(b: Point, c: Point, d: Point)
    requires b.x < c.x == d.x
    ensures SortBy([b, c, d], NegX) == [c, d, b]
  {
    assert [b, c, d] == [b] + [c, d] && [c, d] == [c] + [d] && [d] == [d] + [];
    SortByCons(d, []);
    InsertFront(d, [], NegX);
    SortByCons(c, [d]);
    InsertFront(c, [d], NegX);
    SortByCons(b, [c, d]);
    InsertPast(b, [c, d], NegX);
    InsertPast(b, [d], NegX);
    InsertFront(b, [], NegX);
    assert [c] + ([d] + [b]) == [c, d, b];
  }

  lemma FourDisplay(p: Point, q: Point, r: Point, t: Point)
    ensures [p] + ([q] + ([r] + [t])) == [p, q, r, t]
  {
  }

  lemma SortByCons(x: Point, s: seq<Point>)
    ensures SortBy([x] + s, NegX) == Insert(x, SortBy(s, NegX), NegX)
  {
    assert ([x] + s)[1..] == s;
  }

  lemma InsertFront(x: Point, s: seq<Point>, key: Point -> real)
    requires s == [] || key(x) <= key(s[0])
    ensures Insert(x, s, key) == [x] + s
  {
  }

  lemma InsertPast(x: Point, s: seq<Point>, key: Point -> real)
    requires s != [] && key(s[0]) < key(x)
    ensures Insert(x, s, key) == [s[0]] + Insert(x, s[1..], key)
  {
  }

  /** The corners `is_tape` gives for each of the contours. */
  function TapeBoxes(cs: seq<TapeContours.Contour>): (rects: seq<seq<Point>>)
    ensures |rects| == |cs| && forall i :: 0 <= i < |cs| ==> rects[i] == TapeContours.TapeCorners(cs[i])
  {
    seq(|cs|, i requires 0 <= i < |cs| => TapeContours.TapeCorners(cs[i]))
  }

  /** Both outer pairs of a set of `is_tape` boxes are vertical. */
  lemma TapePairsVertical(cs: seq<TapeContours.Contour>)
    requires |cs| >= 2
    ensures HasPairs(TapeBoxes(cs))
    ensures LeftPair(TapeBoxes(cs))[0].x == LeftPair(TapeBoxes(cs))[1].x
    ensures RightPair(TapeBoxes(cs))[0].x == RightPair(TapeBoxes(cs))[1].x
  {
    var rects := TapeBoxes(cs);
    var sr := SortedRects(rects);
    assert sr[0] in multiset(rects) && sr[1] in multiset(rects);
    var i :| 0 <= i < |rects| && rects[i] == sr[0];
    var j :| 0 <= j < |rects| && rects[j] == sr[1];
    BoxPairsVertical(cs[i]);
    BoxPairsVertical(cs[j]);
  }

  /** Corner sets produced by `is_tape` always fail `get_lines`' division guards. */
  lemma TapeBoxesBreakGetLines(cs: seq<TapeContours.Contour>)
    requires |cs| >= 2
    ensures !LinesDefined(TapeBoxes(cs))
  {
    TapePairsVertical(cs);
  }

  // ---------------------------------------------------------------------
  // get_lines as written: the outer pairs are divided by their x distance
  // ---------------------------------------------------------------------

  /** At least two rectangles, each with the two corners `get_two_corner_line` unpacks. */
  predicate HasPairs(rects: seq<seq<Point>>)
  {
    |rects| >= 2 && forall i :: 0 <= i < |rects| ==> |rects[i]| >= 2
  }

  /**
    `get_lines` as written. `np.polyfit` fits the top and bottom lines
    first and does not raise; then `get_two_corner_line` divides by
    `x1 - x2` of the left pair, then of the right pair, and Python
    raises `ZeroDivisionError` on a zero divisor.
  */
  function GetLinesAsWritten(rects: seq<seq<Point>>): (r: Outcome<seq<Line>>)
    requires HasPairs(rects)
    requires PairDefined(LeftPair(rects)) && PairDefined(RightPair(rects)) ==>
               FitDefined(TopCorners(rects)) && FitDefined(BottomCorners(rects))
    ensures r.ZeroDivisionError? <==>
              LeftPair(rects)[0].x == LeftPair(rects)[1].x || RightPair(rects)[0].x == RightPair(rects)[1].x
    ensures r.Returned? ==> LinesDefined(rects) && r.value == GetLines(rects)
  {
    if !PairDefined(LeftPair(rects)) then ZeroDivisionError
    else if !PairDefined(RightPair(rects)) then ZeroDivisionError
    else Returned(GetLines(rects))
  }

  /** On the boxes `is_tape` gives, `get_lines` as written always raises. */
  lemma TapeBoxesRaise(cs: seq<TapeContours.Contour>)
    requires |cs| >= 2
    ensures && HasPairs(TapeBoxes(cs))
            && !PairDefined(LeftPair(TapeBoxes(cs))) && !PairDefined(RightPair(TapeBoxes(cs)))
            && GetLinesAsWritten(TapeBoxes(cs)) == ZeroDivisionError
  {
    TapePairsVertical(cs);
  }

  // ---------------------------------------------------------------------
  // get_lines with vertical sides
  // ---------------------------------------------------------------------

  /** A side of the target: the line y = m*x + b, or the vertical line x = c. */
  datatype Side = Sloped(line: Line) | Vertical(x: real)

  predicate OnSide(p: Point, s: Side)
  {
    match s
    case Sloped(l) => OnLine(p, l)
    case Vertical(x) => p.x == x
  }

  /** The side through two corners: vertical exactly when they share x. */
  function SideThrough(pair: seq<Point>): (s: Side)
    requires |pair| >= 2
    ensures OnSide(pair[0], s) && OnSide(pair[1], s)
    ensures s.Vertical? <==> pair[0].x == pair[1].x
  {
    if pair[0].x == pair[1].x then Vertical(pair[0].x) else Sloped(TwoCornerLine(pair))
  }

  /** Two sides meet in one point: they are not both vertical nor two parallel lines. */
  predicate Crosses(a: Side, b: Side)
  {
    if a.Sloped? && b.Sloped? then a.line.m != b.line.m else a.Sloped? || b.Sloped?
  }

  /** The one point two crossing sides share. */
  function Meet(a: Side, b: Side): (p: Point)
    requires Crosses(a, b)
    ensures OnSide(p, a) && OnSide(p, b)
  {
    if a.Sloped? && b.Sloped? then IntersectionPoint(a.line, b.line)
    else if a.Sloped? then Point(b.x, a.line.m * b.x + a.line.b)
    else Point(a.x, b.line.m * a.x + b.line.b)
  }

  /** No other point lies on both sides. */
  lemma MeetUnique(a: Side, b: Side, q: Point)
    requires Crosses(a, b) && OnSide(q, a) && OnSide(q, b)
    ensures q == Meet(a, b)
  {
  }

  /**
    `get_lines` with a vertical side where the outer pair shares x:
    [top, right, bottom, left].
  */
  function GetSides(rects: seq<seq<Point>>): (sides: seq<Side>)
    requires HasPairs(rects) && FitDefined(TopCorners(rects)) && FitDefined(BottomCorners(rects))
    ensures |sides| == 4 && sides[0].Sloped? && sides[2].Sloped?
    ensures NormalEquations(MomentsOf(TopCorners(rects)), sides[0].line)
    ensures NormalEquations(MomentsOf(BottomCorners(rects)), sides[2].line)
    ensures OnSide(RightPair(rects)[0], sides[1]) && OnSide(RightPair(rects)[1], sides[1])
    ensures OnSide(LeftPair(rects)[0], sides[3]) && OnSide(LeftPair(rects)[1], sides[3])
    ensures sides[1].Vertical? <==> RightPair(rects)[0].x == RightPair(rects)[1].x
    ensures sides[3].Vertical? <==> LeftPair(rects)[0].x == LeftPair(rects)[1].x
  {
    [Sloped(CornerLine(TopCorners(rects))), SideThrough(RightPair(rects)),
     Sloped(CornerLine(BottomCorners(rects))), SideThrough(LeftPair(rects))]
  }

  /** Every side crosses the next one (the last one's next is the first). */
  predicate SidesCross(s: seq<Side>)
  {
    |s| == 4 && Crosses(s[0], s[1]) && Crosses(s[1], s[2]) && Crosses(s[2], s[3]) && Crosses(s[3], s[0])
  }

  /** Corner `i` lies on side `i` and on the next side. */
  predicate AtCorner(c: Point, s: seq<Side>, i: int)
    requires |s| == 4 && 0 <= i < 4
  {
    OnSide(c, s[i]) && OnSide(c, s[(i + 1) % 4])
  }

  /** The crossing of each side with the next, as `get_intersection_points` pairs them. */
  function SideCorners(s: seq<Side>): (corners: seq<Point>)
    requires SidesCross(s)
    ensures |corners| == 4
    ensures AtCorner(corners[0], s, 0) && AtCorner(corners[1], s, 1)
    ensures AtCorner(corners[2], s, 2) && AtCorner(corners[3], s, 3)
  {
    [Meet(s[0], s[1]), Meet(s[1], s[2]), Meet(s[2], s[3]), Meet(s[3], s[0])]
  }

  /** Where every side is a sloped line, the side corners are the corners of the lines. */
  lemma SideCornersOfLines(s: seq<Side>, l: seq<Line>)
    requires |s| == |l| == 4 && s == [Sloped(l[0]), Sloped(l[1]), Sloped(l[2]), Sloped(l[3])]
    requires AdjacentNonParallel(l)
    ensures SidesCross(s) && SideCorners(s) == IntersectionPoints(l)
  {
    assert CrossesNext(l, 0) && CrossesNext(l, 1) && CrossesNext(l, 2) && CrossesNext(l, 3);
    var o := IntersectionPoints(l);
    assert OnLine(o[3], l[(3 + 1) % 4]);
    MeetUnique(s[0], s[1], o[0]);
    MeetUnique(s[1], s[2], o[1]);
    MeetUnique(s[2], s[3], o[2]);
    MeetUnique(s[3], s[0], o[3]);
  }

  /** `get_outside_corners` on the corrected sides. */
  function OutsideCornersCorrected(rects: seq<seq<Point>>): (corners: seq<Point>)
    requires HasPairs(rects) && FitDefined(TopCorners(rects)) && FitDefined(BottomCorners(rects))
    requires SidesCross(GetSides(rects))
    ensures |corners| == 4
    ensures var s := GetSides(rects);
      AtCorner(corners[0], s, 0) && AtCorner(corners[1], s, 1) && AtCorner(corners[2], s, 2) && AtCorner(corners[3], s, 3)
  {
    SideCorners(GetSides(rects))
  }

  /**
    Where `get_lines` as written returns, the corrected sides are its
    lines and the corrected corners are its outside corners.
  */
  lemma CorrectedAgrees(rects: seq<seq<Point>>)
    requires HasPairs(rects) && LinesDefined(rects) && AdjacentNonParallel(GetLines(rects))
    ensures forall i :: 0 <= i < 4 ==> GetSides(rects)[i] == Sloped(GetLines(rects)[i])
    ensures SidesCross(GetSides(rects)) && OutsideCornersCorrected(rects) == OutsideCorners(rects)
  {
    var s, l := GetSides(rects), GetLines(rects);
    assert s[1] == Sloped(RightLine(rects)) && s[3] == Sloped(LeftLine(rects));
    assert s == [Sloped(l[0]), Sloped(l[1]), Sloped(l[2]), Sloped(l[3])];
    SideCornersOfLines(s, l);
  }

  /**
    On the boxes `is_tape` gives, the corrected left and right sides are
    vertical, every side crosses the next, and the outside corners lie on
    the left pair's and the right pair's x.
  */
  lemma TapeBoxesCorrected(cs: seq<TapeContours.Contour>)
    requires |cs| >= 2
    requires FitDefined(TopCorners(TapeBoxes(cs))) && FitDefined(BottomCorners(TapeBoxes(cs)))
    ensures var rects := TapeBoxes(cs);
      && GetSides(rects)[1].Vertical? && GetSides(rects)[3].Vertical?
      && SidesCross(GetSides(rects))
      && OutsideCornersCorrected(rects)[0].x == OutsideCornersCorrected(rects)[1].x == RightPair(rects)[0].x
      && OutsideCornersCorrected(rects)[2].x == OutsideCornersCorrected(rects)[3].x == LeftPair(rects)[0].x
  {
    var rects := TapeBoxes(cs);
    TapePairsVertical(cs);
    var s := GetSides(rects);
    var c := OutsideCornersCorrected(rects);
    assert OnSide(c[3], s[(3 + 1) % 4]);
  }
}
