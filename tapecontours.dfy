/**
  The tape resolver of processing/tapecontours.py: the test that decides
  whether a contour is a piece of retro-reflective tape, the scan for the
  first such contour, the rebuilding of a piece split in two by an
  obstacle, and the resolution of the primary and secondary pieces.

  A contour is the record of the features the code asks OpenCV for. Its
  identity (Python's `is`) is its index in the area-sorted list.
*/
module TapeContours {

  import opened Common
  import opened Geometry

  // ---------------------------------------------------------------------
  // Constants of processing/tapecontours.py
  // ---------------------------------------------------------------------

  const MaxAreaError: real := 0.6
  const MaxHeightError: real := 0.4
  const MinPad: real := 1.0
  const TapeWidth: real := 2.0
  const TapeHeight: real := 5.0
  const TapeWhRatio: real := TapeWidth / TapeHeight
  const TapeAcceptableError: real := 0.4
  const TargetWidth: real := 10.25
  const TargetHeight: real := 5.0

  /** `contourArea` is never negative. */
  type Area = r: real | r >= 0.0

  /** `boundingRect` of a non-empty contour spans at least one pixel. */
  type Side = n: int | n >= 1 witness 1

  /**
    What OpenCV reports about a contour: its area, its bounding rectangle,
    the vertex count of its 4%-perimeter polygon approximation and its
    moments m00, m10, m01.
  */
  datatype Contour = Contour(area: Area, x: int, y: int, w: Side, h: Side,
                             approxLen: nat, m00: real, m10: real, m01: real)

  /** An OpenCV point array: an n x 1 array of points. */
  type CvPoints = s: seq<seq<Point>> | forall i :: 0 <= i < |s| ==> |s[i]| == 1

  /** `corners_to_tuples`: `[tuple(c[0]) for c in corners]`. */
  function CornersToTuples(corners: CvPoints): (r: seq<Point>)
    ensures |r| == |corners|
    ensures forall i :: 0 <= i < |corners| ==> corners[i] == [r[i]]
  {
    seq(|corners|, i requires 0 <= i < |corners| => corners[i][0])
  }

  /** The inverse conversion: each point becomes a one-point row. */
  function TuplesToCorners(ps: seq<Point>): (r: CvPoints)
    ensures |r| == |ps|
  {
    seq(|ps|, i requires 0 <= i < |ps| => [ps[i]])
  }

  /** The conversion loses nothing: it is a bijection between the two forms. */
  lemma CornersTuplesRoundTrip(corners: CvPoints, ps: seq<Point>)
    ensures TuplesToCorners(CornersToTuples(corners)) == corners
    ensures CornersToTuples(TuplesToCorners(ps)) == ps
  {
    var r := TuplesToCorners(CornersToTuples(corners));
    assert forall i :: 0 <= i < |corners| ==> r[i] == corners[i];
  }

  /** Python's `int()` of a float: truncation toward zero. */
  function Trunc(r: real): (t: int)
    ensures Abs(t as real) <= Abs(r) < Abs(t as real) + 1.0
    ensures t != 0 ==> (t > 0 <==> r > 0.0)
  {
    if r >= 0.0 then r.Floor else -((-r).Floor)
  }

  const Sentinel: Point := Point(-10000.0, -10000.0)

  /**
    `get_center`: the centroid from the moments, each coordinate truncated
    toward zero; the sentinel (-1e4, -1e4) when m00 is zero.
  */
  function Center(c: Contour): (p: Point)
    ensures c.m00 == 0.0 ==> p == Sentinel
    ensures c.m00 != 0.0 ==>
              && Abs(p.x) <= Abs(c.m10 / c.m00) < Abs(p.x) + 1.0
              && Abs(p.y) <= Abs(c.m01 / c.m00) < Abs(p.y) + 1.0
              && p.x.Floor as real == p.x && p.y.Floor as real == p.y
  {
    if c.m00 == 0.0 then Sentinel
    else Point(Trunc(c.m10 / c.m00) as real, Trunc(c.m01 / c.m00) as real)
  }

  /** `get_target_corners`, with the unscaled TARGET_WIDTH and TARGET_HEIGHT. */
  function TapeTargetCorners(w: int, h: int): (r: seq<Point>)
    ensures |r| == 4
    ensures r[0] == Point(w as real / 2.0 + 5.125, h as real / 2.0 - 2.5)
    ensures r[1] == Point(w as real / 2.0 + 5.125, h as real / 2.0 + 2.5)
    ensures r[2] == Point(w as real / 2.0 - 5.125, h as real / 2.0 + 2.5)
    ensures r[3] == Point(w as real / 2.0 - 5.125, h as real / 2.0 - 2.5)
  {
    TargetCorners(w, h, TargetWidth, TargetHeight)
  }

  // ---------------------------------------------------------------------
  // is_tape
  // ---------------------------------------------------------------------

  /** `min(w/h, h/w)`. */
  function AspectRatio(c: Contour): (r: real)
    ensures 0.0 < r <= 1.0
  {
    var w, h := c.w as real, c.h as real;
    if w <= h then
      RatioAtMostOne(w, h);
      RatioAtMostOne(h, h);
      Min(w / h, h / w)
    else
      RatioAtMostOne(h, w);
      Min(w / h, h / w)
  }

  lemma RatioAtMostOne(a: real, b: real)
    requires 0.0 < a <= b
    ensures 0.0 < a / b <= 1.0
    ensures b / a > 0.0
  {
    assert a / b * b == a;
  }

  /** The bounding-box corners, bottom-left first and counter-clockwise in image terms. */
  function BoxPoints(c: Contour): CvPoints
  {
    [[Point(c.x as real, (c.y + c.h) as real)], [Point(c.x as real, c.y as real)],
     [Point((c.x + c.w) as real, c.y as real)], [Point((c.x + c.w) as real, (c.y + c.h) as real)]]
  }

  /**
    `is_tape`: `Some(points)` for `(True, points)`, `None` for
    `(False, None)`. The three criteria are checked in the source's order.
  */
  function IsTape(c: Contour): (r: Option<CvPoints>)
    ensures !(4 <= c.approxLen <= 5) ==> r.None?
    ensures r.Some? ==> r.value == BoxPoints(c)
  {
    if !(4 <= c.approxLen <= 5) then None
    else if c.area == 0.0 || c.area / (c.w as real) / (c.h as real) < 0.7 then None
    else if Abs((TapeWhRatio - AspectRatio(c)) / TapeWhRatio) < TapeAcceptableError then
      Some(BoxPoints(c))
    else None
  }

  /** `area / w / h < 0.7` is `area < 0.7 * w * h` for a positive box. */
  lemma FillBound(a: real, w: real, h: real)
    requires w > 0.0 && h > 0.0
    ensures a / w / h < 0.7 <==> a < 0.7 * (w * h)
  {
    assert a / w / h == a / (w * h);
    assert a == (a / (w * h)) * (w * h);
  }

  /** The aspect criterion, |(0.4 - ratio) / 0.4| < 0.4, is 0.24 < ratio < 0.56. */
  lemma AspectBand(ratio: real)
    ensures Abs((TapeWhRatio - ratio) / TapeWhRatio) < TapeAcceptableError <==> 0.24 < ratio < 0.56
  {
    assert TapeWhRatio == 0.4;
  }

  /** The three criteria in closed form. */
  lemma IsTapeExactly(c: Contour)
    ensures IsTape(c).Some? <==>
              && 4 <= c.approxLen <= 5
              && c.area > 0.0
              && c.area >= 0.7 * ((c.w as real) * (c.h as real))
              && 0.24 < AspectRatio(c) < 0.56
  {
    FillBound(c.area, c.w as real, c.h as real);
    AspectBand(AspectRatio(c));
  }

  /** Rejections for an empty contour and for one filling less than 70% of its box. */
  lemma IsTapeRejectsSparse(c: Contour)
    requires c.area == 0.0 || c.area < 0.7 * ((c.w as real) * (c.h as real))
    ensures IsTape(c).None?
  {
    IsTapeExactly(c);
  }

  /** Acceptance does not change when the box's width and height swap. */
  lemma IsTapeSwap(c: Contour)
    ensures IsTape(c).Some? == IsTape(c.(w := c.h, h := c.w)).Some?
  {
    var d := c.(w := c.h, h := c.w);
    IsTapeExactly(c);
    IsTapeExactly(d);
    assert AspectRatio(c) == AspectRatio(d);
    assert (c.w as real) * (c.h as real) == (d.w as real) * (d.h as real);
  }

  /** The corner list `is_tape` hands back, as `corners_to_tuples` converts it. */
  function TapeCorners(c: Contour): (r: seq<Point>)
    ensures |r| == 4
    ensures r[0].x == r[1].x && r[2].x == r[3].x
    ensures r[1].y == r[2].y && r[0].y == r[3].y
    ensures r[0].y - r[1].y == c.h as real && r[2].x - r[1].x == c.w as real
  {
    CornersToTuples(BoxPoints(c))
  }

  // ---------------------------------------------------------------------
  // large_tape_piece
  // ---------------------------------------------------------------------

  /** The previously found piece and its area (`tape_cnt`, `tape_area`). */
  datatype Ref = Ref(cnt: Contour, area: real)

  /** The divisions by `tape_area` are defined whenever they are made. */
  predicate Usable(ref: Option<Ref>, cs: seq<Contour>)
  {
    ref.Some? && cs != [] ==> ref.value.area != 0.0
  }

  /**
    The cutoff of the scan: a relative area error above 0.6, or a height
    difference above 0.4 of the reference's AREA, as the source divides.
  */
  predicate Stops(c: Contour, ref: Ref)
    requires ref.area != 0.0
  {
    AreaError(c, ref) > MaxAreaError || HeightError(c, ref) > MaxHeightError
  }

  /** `err1`: the area difference relative to the reference area. */
  function AreaError(c: Contour, ref: Ref): real
    requires ref.area != 0.0
  {
    Abs(c.area - ref.area) / ref.area
  }

  /** `err2`: the height difference, also divided by the reference area. */
  function HeightError(c: Contour, ref: Ref): real
    requires ref.area != 0.0
  {
    Abs((c.h - ref.cnt.h) as real) / ref.area
  }

  /** The contours before `k` pass the cutoff (there is none without a reference). */
  predicate Passed(cs: seq<Contour>, ref: Option<Ref>, k: int)
    requires Usable(ref, cs)
  {
    forall j :: 0 <= j < k && j < |cs| ==> ref.None? || !Stops(cs[j], ref.value)
  }

  /** The contours before `k` all fail `is_tape`. */
  predicate Rejected(cs: seq<Contour>, k: int)
  {
    forall j :: 0 <= j < k && j < |cs| ==> IsTape(cs[j]).None?
  }

  /** What `large_tape_piece` returns; the match is an index into its input. */
  datatype Piece = Piece(hit: Option<nat>, corners: Option<seq<Point>>, rest: seq<Contour>)

  /**
    `large_tape_piece` as a value: the first contour that passes `is_tape`
    before the cutoff stops the scan, its corners, and what follows it.
  */
  function Scan(cs: seq<Contour>, ref: Option<Ref>): (r: Piece)
    requires Usable(ref, cs)
    ensures r.hit.Some? ==> r.hit.value < |cs|
    ensures r.hit.Some? <==> r.corners.Some?
    decreases |cs|
  {
    if cs == [] then Piece(None, None, [])
    else if ref.Some? && Stops(cs[0], ref.value) then Piece(None, None, cs)
    else if IsTape(cs[0]).Some? then Piece(Some(0), Some(TapeCorners(cs[0])), cs[1..])
    else Shifted(Scan(cs[1..], ref), 1)
  }

  /**
    A match is the first contour that passes `is_tape`, every contour up
    to it passed the cutoff, and the rest is what follows it.
  */
  lemma {:induction false} ScanHit(cs: seq<Contour>, ref: Option<Ref>)
    requires Usable(ref, cs)
    ensures var r := Scan(cs, ref);
      r.hit.Some? ==>
        && IsTape(cs[r.hit.value]).Some?
        && r.corners == Some(TapeCorners(cs[r.hit.value]))
        && r.rest == cs[r.hit.value + 1..]
        && Rejected(cs, r.hit.value)
        && Passed(cs, ref, r.hit.value + 1)
    decreases |cs|
  {
    if cs != [] && !(ref.Some? && Stops(cs[0], ref.value)) && IsTape(cs[0]).None? {
      var t := cs[1..];
      ScanHit(t, ref);
      var r := Scan(t, ref);
      if r.hit.Some? {
        var i := r.hit.value;
        assert cs[i + 1] == t[i];
        assert cs[i + 2..] == t[i + 1..];
        assert forall j :: 1 <= j < |cs| ==> cs[j] == t[j - 1];
      }
    }
  }

  /**
    Without a match, the rest starts at the contour that stopped the scan
    (one only a reference can stop), or is empty when the list ran out;
    every contour before it passed the cutoff and failed `is_tape`.
  */
  lemma {:induction false} ScanMiss(cs: seq<Contour>, ref: Option<Ref>)
    requires Usable(ref, cs)
    ensures var r := Scan(cs, ref);
      r.hit.None? ==>
        && r.corners.None?
        && |r.rest| <= |cs|
        && r.rest == cs[|cs| - |r.rest|..]
        && Rejected(cs, |cs| - |r.rest|)
        && Passed(cs, ref, |cs| - |r.rest|)
        && (r.rest != [] ==> ref.Some? && Stops(r.rest[0], ref.value))
    decreases |cs|
  {
    if cs != [] && !(ref.Some? && Stops(cs[0], ref.value)) && IsTape(cs[0]).None? {
      var t := cs[1..];
      ScanMiss(t, ref);
      var r := Scan(t, ref);
      if r.hit.None? {
        var k := |t| - |r.rest|;
        assert cs[k + 1..] == t[k..];
        assert forall j :: 1 <= j < |cs| ==> cs[j] == t[j - 1];
      }
    }
  }

  /** Renumbers a result found in a suffix that starts at index `k`. */
  function Shifted(r: Piece, k: nat): Piece
  {
    Piece(if r.hit.Some? then Some(r.hit.value + k) else None, r.corners, r.rest)
  }

  /** Without a reference nothing stops the scan: a miss consumes every contour. */
  lemma ScanWithoutReference(cs: seq<Contour>)
    ensures Scan(cs, None).hit.None? ==>
              Scan(cs, None).rest == [] && forall j :: 0 <= j < |cs| ==> IsTape(cs[j]).None?
  {
    ScanMiss(cs, None);
  }

  /** One step of the scan at index `i`: stop, match, or skip to `i + 1`. */
  lemma ScanAt(cs: seq<Contour>, ref: Option<Ref>, i: nat)
    requires Usable(ref, cs) && i < |cs|
    ensures ref.Some? && Stops(cs[i], ref.value) ==> Scan(cs[i..], ref) == Piece(None, None, cs[i..])
    ensures !(ref.Some? && Stops(cs[i], ref.value)) && IsTape(cs[i]).Some? ==>
              Scan(cs[i..], ref) == Piece(Some(0), Some(TapeCorners(cs[i])), cs[i + 1..])
    ensures !(ref.Some? && Stops(cs[i], ref.value)) && IsTape(cs[i]).None? ==>
              Scan(cs[i..], ref) == Shifted(Scan(cs[i + 1..], ref), 1)
  {
    assert cs[i..][0] == cs[i];
    assert cs[i..][1..] == cs[i + 1..];
  }

  /** `large_tape_piece`: the loop that rebinds `rest` and breaks or returns early. */
  method LargeTapePiece(contours: seq<Contour>, ref: Option<Ref>)
    returns (hit: Option<nat>, corners: Option<seq<Point>>, rest: seq<Contour>)
    requires Usable(ref, contours)
    ensures Piece(hit, corners, rest) == Scan(contours, ref)
  {
    rest := contours;
    var i := 0;
    while i < |contours|
      invariant 0 <= i <= |contours|
      invariant rest == contours[i..]
      invariant Scan(contours, ref) == Shifted(Scan(contours[i..], ref), i)
    {
      var c := contours[i];
      ScanAt(contours, ref, i);
      if ref.Some? {
        var err1 := AreaError(c, ref.value);
        var err2 := HeightError(c, ref.value);
        if err1 > MaxAreaError {
          break;
        }
        if err2 > MaxHeightError {
          break;
        }
      }
      rest := rest[1..];
      var tape := IsTape(c);
      if tape.Some? {
        assert Scan(contours[i..], ref) == Piece(Some(0), Some(TapeCorners(c)), rest);
        return Some(i), Some(CornersToTuples(tape.value)), rest;
      }
      i := i + 1;
    }
    assert Scan(contours[i..], ref) == Piece(None, None, rest);
    return None, None, rest;
  }

  // ---------------------------------------------------------------------
  // split_tape_piece
  // ---------------------------------------------------------------------

  /** What `split_tape_piece` returns: the combined contour and its corners, or neither. */
  datatype Split = Split(cnt: Option<Contour>, corners: Option<seq<Point>>)

  /** The candidates in the order `split_tape_piece` considers them. */
  function Ordered(cs: seq<Contour>, ref: Option<Ref>, key: (Ref, Contour) -> real): (o: seq<Contour>)
    ensures multiset(o) == multiset(cs) && |o| == |cs|
    ensures ref.Some? ==> SortedBy(o, c => key(ref.value, c))
  {
    if ref.Some? then
      SortByBag(cs, c => key(ref.value, c));
      SortBy(cs, c => key(ref.value, c))
    else cs
  }

  /**
    `split_tape_piece`: with two or more candidates, the hull of the two
    that come first in key order stands as the whole piece when a
    one-element `large_tape_piece` run with the same reference accepts it.
    The key (a fractional power of the centre distance times a power of the
    area error) and the hull are parameters.
  */
  function SplitTapePiece(cs: seq<Contour>, ref: Option<Ref>, key: (Ref, Contour) -> real,
                          hull: (Contour, Contour) -> Contour): (r: Split)
    requires |cs| >= 2 ==> Usable(ref, cs)
    ensures |cs| < 2 ==> r == Split(None, None)
    ensures r.cnt.None? <==> r.corners.None?
    ensures |cs| >= 2 ==>
              var o := Ordered(cs, ref, key);
              var combined := hull(o[0], o[1]);
              && (r.cnt.Some? <==>
                    (ref.None? || !Stops(combined, ref.value)) && IsTape(combined).Some?)
              && (r.cnt.Some? ==> r.cnt.value == combined && r.corners == Some(TapeCorners(combined)))
  {
    var o := Ordered(cs, ref, key);
    if |o| >= 2 then
      var combined := hull(o[0], o[1]);
      ScanSingle(combined, ref);
      var p := Scan([combined], ref);
      Split(if p.hit.Some? then Some(combined) else None, p.corners)
    else Split(None, None)
  }

  /** `large_tape_piece` on a one-element list. */
  lemma ScanSingle(c: Contour, ref: Option<Ref>)
    requires ref.Some? ==> ref.value.area != 0.0
    ensures Scan([c], ref) ==
              if ref.Some? && Stops(c, ref.value) then Piece(None, None, [c])
              else if IsTape(c).Some? then Piece(Some(0), Some(TapeCorners(c)), [])
              else Piece(None, None, [])
  {
    assert [c][1..] == [];
  }

  /**
    The two contours combined are two distinct candidates, and no other
    candidate has a smaller key than either of them.
  */
  lemma SplitUsesLowestKeys(cs: seq<Contour>, ref: Ref, key: (Ref, Contour) -> real)
    requires |cs| >= 2
    ensures var o := Ordered(cs, Some(ref), key);
      && multiset{o[0], o[1]} <= multiset(cs)
      && key(ref, o[0]) <= key(ref, o[1])
      && forall j :: 2 <= j < |cs| ==> key(ref, o[1]) <= key(ref, o[j])
  {
    var o := Ordered(cs, Some(ref), key);
    assert o == [o[0], o[1]] + o[2..];
    assert multiset(o) == multiset{o[0], o[1]} + multiset(o[2..]);
  }

  // ---------------------------------------------------------------------
  // get_tape_contours_and_corners
  // ---------------------------------------------------------------------

  /** The search windows around the primary piece. */
  datatype Window = Window(tcx: real, tcy: real, pad: real, xRange: real, yRange: real)

  /** The windows of the source: the range scales with sqrt(area / 10), the pad is sqrt(area). */
  function WindowAround(tape: Contour, sqrt: real -> real): (w: Window)
    ensures w.tcx == Center(tape).x && w.tcy == Center(tape).y
    ensures w.pad == sqrt(tape.area) * MinPad
    ensures w.xRange == TargetWidth * sqrt(tape.area / (TapeWidth * TapeHeight)) * 1.8 / 2.0
    ensures w.yRange == TargetHeight * sqrt(tape.area / (TapeWidth * TapeHeight)) * 1.8 / 2.0
  {
    var center := Center(tape);
    var asqrt := sqrt(tape.area);
    var percentSize := sqrt(tape.area / (TapeWidth * TapeHeight));
    var exactRange := TargetWidth * percentSize;
    Window(center.x, center.y, asqrt * MinPad, exactRange * 1.8 / 2.0,
           TargetHeight * percentSize * 1.8 / 2.0)
  }

  predicate InRows(w: Window, p: Point)
  {
    w.tcy - w.yRange < p.y < w.tcy + w.yRange
  }

  predicate InLeft(w: Window, p: Point)
  {
    w.tcx - w.xRange < p.x < w.tcx - w.pad
  }

  predicate InRight(w: Window, p: Point)
  {
    w.tcx + w.pad < p.x < w.tcx + w.xRange
  }

  /** The indices below `n`, other than the primary, whose centre lies in the left window. */
  function LeftIndices(s: seq<Contour>, primary: nat, w: Window, n: nat): (r: seq<nat>)
    requires n <= |s|
    ensures forall k :: 0 <= k < |r| ==> r[k] < n
  {
    if n == 0 then []
    else
      var j := n - 1;
      LeftIndices(s, primary, w, j)
        + (if j != primary && InRows(w, Center(s[j])) && InLeft(w, Center(s[j])) then [j] else [])
  }

  /** The indices below `n`, other than the primary, whose centre lies in the right window. */
  function RightIndices(s: seq<Contour>, primary: nat, w: Window, n: nat): (r: seq<nat>)
    requires n <= |s|
    ensures forall k :: 0 <= k < |r| ==> r[k] < n
  {
    if n == 0 then []
    else
      var j := n - 1;
      RightIndices(s, primary, w, j)
        + (if j != primary && InRows(w, Center(s[j])) && InRight(w, Center(s[j])) then [j] else [])
  }

  /** The contours at the given indices, in that order. */
  function Gather(s: seq<Contour>, idx: seq<nat>): (r: seq<Contour>)
    requires forall k :: 0 <= k < |idx| ==> idx[k] < |s|
    ensures |r| == |idx|
    ensures forall k :: 0 <= k < |idx| ==> r[k] == s[idx[k]]
  {
    seq(|idx|, k requires 0 <= k < |idx| => s[idx[k]])
  }

  /** Membership in the left list. */
  lemma {:induction false} LeftMembers(s: seq<Contour>, primary: nat, w: Window, n: nat)
    requires n <= |s|
    ensures forall j: nat :: j in LeftIndices(s, primary, w, n) <==>
              j < n && j != primary && InRows(w, Center(s[j])) && InLeft(w, Center(s[j]))
  {
    if n > 0 {
      LeftMembers(s, primary, w, n - 1);
    }
  }

  /** Membership in the right list. */
  lemma {:induction false} RightMembers(s: seq<Contour>, primary: nat, w: Window, n: nat)
    requires n <= |s|
    ensures forall j: nat :: j in RightIndices(s, primary, w, n) <==>
              j < n && j != primary && InRows(w, Center(s[j])) && InRight(w, Center(s[j]))
  {
    if n > 0 {
      RightMembers(s, primary, w, n - 1);
    }
  }

  /**
    For the windows around the primary piece, the primary is in neither
    list, and since the pad is a square root, hence not negative, no
    contour is in both.
  */
  lemma WindowsDisjoint(s: seq<Contour>, primary: nat, sqrt: real -> real)
    requires primary < |s| && sqrt(s[primary].area) >= 0.0
    ensures var w := WindowAround(s[primary], sqrt);
      && primary !in LeftIndices(s, primary, w, |s|)
      && primary !in RightIndices(s, primary, w, |s|)
      && forall j :: j in LeftIndices(s, primary, w, |s|) ==> j !in RightIndices(s, primary, w, |s|)
  {
    var w := WindowAround(s[primary], sqrt);
    LeftMembers(s, primary, w, |s|);
    RightMembers(s, primary, w, |s|);
  }

  function NegArea(c: Contour): real
  {
    -(c.area as real)
  }

  /** `sorted(cnt, key=cv2.contourArea, reverse=True)`. */
  function ByAreaDescending(cnts: seq<Contour>): (s: seq<Contour>)
    ensures |s| == |cnts| && multiset(s) == multiset(cnts)
    ensures forall i, j :: 0 <= i < j < |s| ==> s[i].area >= s[j].area
  {
    var s := SortBy(cnts, NegArea);
    SortByBag(cnts, NegArea);
    assert forall i, j :: 0 <= i < j < |s| ==> NegArea(s[i]) <= NegArea(s[j]);
    s
  }

  /** The primary test of the resolver never fails once a piece matched: is_tape demands area > 0. */
  lemma MatchHasArea(cs: seq<Contour>)
    ensures Scan(cs, None).hit.Some? ==> cs[Scan(cs, None).hit.value].area > 0.0
  {
    ScanHit(cs, None);
    if Scan(cs, None).hit.Some? {
      IsTapeExactly(cs[Scan(cs, None).hit.value]);
    }
  }

  /** The loop of `get_tape_contours_and_corners` that fills `rest_left` and `rest_right`. */
  method CollectWindows(sorted: seq<Contour>, primary: nat, w: Window)
    returns (restLeft: seq<Contour>, restRight: seq<Contour>)
    ensures restLeft == Gather(sorted, LeftIndices(sorted, primary, w, |sorted|))
    ensures restRight == Gather(sorted, RightIndices(sorted, primary, w, |sorted|))
  {
    restLeft, restRight := [], [];
    var k := 0;
    while k < |sorted|
      invariant 0 <= k <= |sorted|
      invariant restLeft == Gather(sorted, LeftIndices(sorted, primary, w, k))
      invariant restRight == Gather(sorted, RightIndices(sorted, primary, w, k))
    {
      var c := sorted[k];
      var center := Center(c);
      var iny := w.tcy - w.yRange < center.y < w.tcy + w.yRange;
      if k != primary && iny {
        if w.tcx - w.xRange < center.x < w.tcx - w.pad {
          restLeft := restLeft + [c];
        }
        if w.tcx + w.pad < center.x < w.tcx + w.xRange {
          restRight := restRight + [c];
        }
      }
      k := k + 1;
    }
  }

  /** The candidates of the left window. */
  function LeftCandidates(s: seq<Contour>, primary: nat, w: Window): seq<Contour>
  {
    Gather(s, LeftIndices(s, primary, w, |s|))
  }

  /** The candidates of the right window. */
  function RightCandidates(s: seq<Contour>, primary: nat, w: Window): seq<Contour>
  {
    Gather(s, RightIndices(s, primary, w, |s|))
  }

  /**
    The second half of `get_tape_contours_and_corners`: the left merge,
    else the right merge, else an isolated piece of what the primary scan
    left over.
  */
  method ResolveSecondary(sorted: seq<Contour>, i: nat, rest: seq<Contour>, sqrt: real -> real,
                          key: (Ref, Contour) -> real, hull: (Contour, Contour) -> Contour)
    returns (extra: seq<Contour>, extraCorners: seq<seq<Point>>)
    requires i < |sorted| && sorted[i].area > 0.0
    ensures |extra| == |extraCorners| <= 1
    ensures var ref := Ref(sorted[i], sorted[i].area);
      var w := WindowAround(sorted[i], sqrt);
      var l := SplitTapePiece(LeftCandidates(sorted, i, w), Some(ref), key, hull);
      var r := SplitTapePiece(RightCandidates(sorted, i, w), Some(ref), key, hull);
      var iso := Scan(rest, Some(ref));
      && (l.cnt.Some? ==> extra == [l.cnt.value] && extraCorners == [l.corners.value])
      && (l.cnt.None? && r.cnt.Some? ==> extra == [r.cnt.value] && extraCorners == [r.corners.value])
      && (l.cnt.None? && r.cnt.None? ==>
            if iso.hit.Some?
            then extra == [rest[iso.hit.value]] && extraCorners == [iso.corners.value]
            else extra == [] && extraCorners == [])
  {
    var tape := sorted[i];
    var area := tape.area;
    var w := WindowAround(tape, sqrt);
    var restLeft, restRight := CollectWindows(sorted, i, w);

    var ref := Ref(tape, area);
    var l := SplitTapePiece(restLeft, Some(ref), key, hull);
    var r := SplitTapePiece(restRight, Some(ref), key, hull);
    var lcnt, lcrn := l.cnt, l.corners;
    if lcnt.None? {
      lcnt, lcrn := r.cnt, r.corners;
    }
    if lcnt.Some? {
      extra, extraCorners := [lcnt.value], [lcrn.value];
    } else {
      var t2Hit, t2Crn, _ := LargeTapePiece(rest, Some(ref));
      if t2Hit.Some? {
        extra, extraCorners := [rest[t2Hit.value]], [t2Crn.value];
      } else {
        extra, extraCorners := [], [];
      }
    }
  }

  /**
    `get_tape_contours_and_corners`, from the contours OpenCV found. The
    primary piece is the first tape piece in descending-area order; the
    secondary is the left merge, else the right merge, else an isolated
    piece of what the primary scan left over.
  */
  method GetTapeContoursAndCorners(cnts: seq<Contour>, sqrt: real -> real,
                                   key: (Ref, Contour) -> real, hull: (Contour, Contour) -> Contour)
    returns (found: seq<Contour>, corners: seq<seq<Point>>)
    ensures |found| == |corners| <= 2
    ensures var s := ByAreaDescending(cnts);
      var p := Scan(s, None);
      && (found == [] <==> p.hit.None?)
      && (found != [] ==> s[p.hit.value].area > 0.0)
      && (found != [] ==> found[0] == s[p.hit.value] && corners[0] == p.corners.value)
    ensures var s := ByAreaDescending(cnts);
      var p := Scan(s, None);
      found != [] ==>
        var i := p.hit.value;
        var ref := Ref(s[i], s[i].area);
        var w := WindowAround(s[i], sqrt);
        var l := SplitTapePiece(LeftCandidates(s, i, w), Some(ref), key, hull);
        var r := SplitTapePiece(RightCandidates(s, i, w), Some(ref), key, hull);
        var iso := Scan(p.rest, Some(ref));
        && (l.cnt.Some? ==> found[1..] == [l.cnt.value] && corners[1..] == [l.corners.value])
        && (l.cnt.None? && r.cnt.Some? ==> found[1..] == [r.cnt.value] && corners[1..] == [r.corners.value])
        && (l.cnt.None? && r.cnt.None? ==>
              if iso.hit.Some?
              then found[1..] == [p.rest[iso.hit.value]] && corners[1..] == [iso.corners.value]
              else found[1..] == [] && corners[1..] == [])
  {
    var sorted := ByAreaDescending(cnts);
    found, corners := [], [];
    var tapeHit, tapeCrn, rest := LargeTapePiece(sorted, None);
    MatchHasArea(sorted);
    if tapeHit.Some? && sorted[tapeHit.value].area > 0.0 {
      var i := tapeHit.value;
      var extra, extraCorners := ResolveSecondary(sorted, i, rest, sqrt, key, hull);
      found := [sorted[i]] + extra;
      corners := [tapeCrn.value] + extraCorners;
    }
  }
}
