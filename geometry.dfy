/**
  Line helpers shared, word for word, by processing/gearbestfitcorners.py,
  processing/gearcontours.py and gearcontours2.py: a line is (m, b) with
  y = m*x + b; a least-squares line through many corners, the line through
  two corners, and the crossing point of two lines. Exact `real`
  arithmetic replaces floating point, and every division the source makes
  is a precondition.
*/
module Geometry {

  import opened Common

  /** The line y = m*x + b. */
  datatype Line = Line(m: real, b: real)

  predicate OnLine(p: Point, l: Line)
  {
    p.y == l.m * p.x + l.b
  }

  // ---------------------------------------------------------------------
  // Least squares through the moments of the corners
  // ---------------------------------------------------------------------

  /** The sums n, Sx, Sy, Sxx, Sxy and Syy over a list of corners. */
  datatype Moments = Moments(n: real, sx: real, sy: real, sxx: real, sxy: real, syy: real)

  function AddPoint(r: Moments, p: Point): Moments
  {
    Moments(r.n + 1.0, r.sx + p.x, r.sy + p.y, r.sxx + p.x * p.x, r.sxy + p.x * p.y, r.syy + p.y * p.y)
  }

  function MomentsOf(ps: seq<Point>): Moments
  {
    if ps == [] then Moments(0.0, 0.0, 0.0, 0.0, 0.0, 0.0) else AddPoint(MomentsOf(ps[1..]), ps[0])
  }

  lemma {:induction false} MomentsCount(ps: seq<Point>)
    ensures MomentsOf(ps).n == |ps| as real
  {
    if ps != [] {
      MomentsCount(ps[1..]);
    }
  }

  /** The vertical error of line `l` at `p`. */
  function Residual(p: Point, l: Line): (r: real)
    ensures r == 0.0 <==> OnLine(p, l)
  {
    p.y - (l.m * p.x + l.b)
  }

  /** The quantity a least-squares fit minimises, summed corner by corner. */
  function SquaredError(ps: seq<Point>, l: Line): real
  {
    if ps == [] then 0.0 else Residual(ps[0], l) * Residual(ps[0], l) + SquaredError(ps[1..], l)
  }

  /** n*Sxx - Sx^2: zero exactly when all x agree (or there are no corners). */
  function Spread(mo: Moments): real
  {
    mo.n * mo.sxx - mo.sx * mo.sx
  }

  /** A degree-1 fit is determined when the corners do not all share one x. */
  predicate FitDefined(ps: seq<Point>)
  {
    |ps| > 0 && Spread(MomentsOf(ps)) != 0.0
  }

  /**
    The squared error is never negative, and it is zero for a line through
    every corner.
  */
  lemma {:induction false} SquaredErrorBounds(ps: seq<Point>, l: Line)
    ensures SquaredError(ps, l) >= 0.0
    ensures (forall i :: 0 <= i < |ps| ==> OnLine(ps[i], l)) ==> SquaredError(ps, l) == 0.0
  {
    if ps != [] {
      SquaredErrorBounds(ps[1..], l);
      SquareNonNegative(Residual(ps[0], l));
      assert (forall i :: 0 <= i < |ps| ==> OnLine(ps[i], l)) ==> forall i :: 0 <= i < |ps[1..]| ==> OnLine(ps[1..][i], l);
    }
  }

  /** Corners that all share one x leave the degree-1 fit undetermined. */
  lemma SameXNoFit(ps: seq<Point>, c: real)
    requires forall i :: 0 <= i < |ps| ==> ps[i].x == c
    ensures !FitDefined(ps)
  {
    SameXMoments(ps, c);
    var mo := MomentsOf(ps);
    assert (mo.n * c) * (mo.n * c) == mo.n * (mo.n * c * c);
  }

  lemma {:induction false} SameXMoments(ps: seq<Point>, c: real)
    requires forall i :: 0 <= i < |ps| ==> ps[i].x == c
    ensures MomentsOf(ps).sx == MomentsOf(ps).n * c && MomentsOf(ps).sxx == MomentsOf(ps).n * c * c
  {
    if ps != [] {
      SameXMoments(ps[1..], c);
      var r := MomentsOf(ps[1..]);
      assert ps[0].x == c;
      assert MomentsOf(ps) == AddPoint(r, ps[0]);
      assert r.sx + c == (r.n + 1.0) * c;
      assert r.sxx + c * c == (r.n + 1.0) * c * c;
    }
  }

  /**
    The two normal equations of a degree-1 least-squares fit: the
    residuals sum to zero, and so do the residuals weighted by x.
  */
  predicate NormalEquations(mo: Moments, l: Line)
  {
    && mo.sy - l.m * mo.sx - l.b * mo.n == 0.0
    && mo.sxy - l.m * mo.sxx - l.b * mo.sx == 0.0
  }

  /** The closed-form solution of the normal equations. */
  function Fit(mo: Moments): (l: Line)
    requires mo.n > 0.0 && Spread(mo) != 0.0
    ensures NormalEquations(mo, l)
  {
    var m := (mo.n * mo.sxy - mo.sx * mo.sy) / Spread(mo);
    var b := (mo.sy - m * mo.sx) / mo.n;
    assert mo.n * b == mo.sy - m * mo.sx;
    assert m * Spread(mo) == mo.n * mo.sxy - mo.sx * mo.sy;
    var nb := mo.n * b;
    assert mo.n * (mo.sxy - m * mo.sxx - b * mo.sx) == mo.n * mo.sxy - m * (mo.n * mo.sxx) - nb * mo.sx;
    assert nb * mo.sx == mo.sy * mo.sx - m * (mo.sx * mo.sx);
    assert mo.n * (mo.sxy - m * mo.sxx - b * mo.sx) == (mo.n * mo.sxy - mo.sx * mo.sy) - m * Spread(mo);
    ZeroProduct(mo.n, mo.sxy - m * mo.sxx - b * mo.sx);
    Line(m, b)
  }

  lemma ZeroProduct(a: real, z: real)
    requires a != 0.0 && a * z == 0.0
    ensures z == 0.0
  {
  }

  /**
    `get_corner_line`: `np.polyfit(xs, ys, deg=1)`, the least-squares
    line through the corners, as the solution of the normal equations.
  */
  function CornerLine(ps: seq<Point>): (l: Line)
    requires FitDefined(ps)
    ensures NormalEquations(MomentsOf(ps), l)
  {
    MomentsCount(ps);
    Fit(MomentsOf(ps))
  }

  /** When the fit is determined, the normal equations have one solution only. */
  lemma NormalEquationsUnique(mo: Moments, l1: Line, l2: Line)
    requires mo.n > 0.0 && Spread(mo) != 0.0
    requires NormalEquations(mo, l1) && NormalEquations(mo, l2)
    ensures l1 == l2
  {
    var n, sx, sxx := mo.n, mo.sx, mo.sxx;
    var dm, db := l1.m - l2.m, l1.b - l2.b;
    assert dm * sx + n * db == 0.0;
    assert dm * sxx + db * sx == 0.0;
    assert dm * (n * sxx - sx * sx) == n * (dm * sxx + db * sx) - sx * (dm * sx + n * db);
    ZeroProduct(n * sxx - sx * sx, dm);
    ZeroProduct(n, db);
  }

  lemma {:induction false} OnLineNormalEquations(ps: seq<Point>, l: Line)
    requires forall i :: 0 <= i < |ps| ==> OnLine(ps[i], l)
    ensures NormalEquations(MomentsOf(ps), l)
  {
    if ps != [] {
      assert OnLine(ps[0], l);
      OnLineNormalEquations(ps[1..], l);
      OnLineStep(MomentsOf(ps[1..]), ps[0], l);
    }
  }

  lemma OnLineStep(r: Moments, p: Point, l: Line)
    requires NormalEquations(r, l) && OnLine(p, l)
    ensures NormalEquations(AddPoint(r, p), l)
  {
    var a := AddPoint(r, p);
    assert p.x * p.y == p.x * (l.m * p.x + l.b);
    assert p.x * (l.m * p.x + l.b) == l.m * (p.x * p.x) + l.b * p.x;
    assert a.sy - l.m * a.sx - l.b * a.n == (r.sy - l.m * r.sx - l.b * r.n) + (p.y - l.m * p.x - l.b);
    assert a.sxy - l.m * a.sxx - l.b * a.sx
        == (r.sxy - l.m * r.sxx - l.b * r.sx) + (p.x * p.y - l.m * (p.x * p.x) - l.b * p.x);
  }

  /** Corners that all lie on one non-vertical line are fitted by that very line. */
  lemma CornerLineExact(ps: seq<Point>, l: Line)
    requires FitDefined(ps)
    requires forall i :: 0 <= i < |ps| ==> OnLine(ps[i], l)
    ensures CornerLine(ps) == l
  {
    OnLineNormalEquations(ps, l);
    MomentsCount(ps);
    NormalEquationsUnique(MomentsOf(ps), l, CornerLine(ps));
  }

  /** The squared error of a line, through the moments. */
  function ErrorOf(mo: Moments, l: Line): real
  {
    mo.syy - 2.0 * l.m * mo.sxy - 2.0 * l.b * mo.sy
      + l.m * l.m * mo.sxx + 2.0 * l.m * l.b * mo.sx + l.b * l.b * mo.n
  }

  lemma ErrorStep(r: Moments, p: Point, l: Line)
    ensures ErrorOf(AddPoint(r, p), l) == Residual(p, l) * Residual(p, l) + ErrorOf(r, l)
  {
  }

  lemma ErrorStepAt(ps: seq<Point>, l: Line)
    requires ps != []
    ensures ErrorOf(MomentsOf(ps), l) == Residual(ps[0], l) * Residual(ps[0], l) + ErrorOf(MomentsOf(ps[1..]), l)
  {
    ErrorStep(MomentsOf(ps[1..]), ps[0], l);
  }

  lemma SameStep(a: real, a1: real, b: real, b1: real, d: real)
    requires a == d + a1 && b == d + b1 && a1 == b1
    ensures a == b
  {
  }

  lemma {:induction false} SquaredErrorMoments(ps: seq<Point>, l: Line)
    ensures SquaredError(ps, l) == ErrorOf(MomentsOf(ps), l)
  {
    if ps != [] {
      SquaredErrorMoments(ps[1..], l);
      ErrorStepAt(ps, l);
      var sq := Residual(ps[0], l) * Residual(ps[0], l);
      SameStep(SquaredError(ps, l), SquaredError(ps[1..], l), ErrorOf(MomentsOf(ps), l), ErrorOf(MomentsOf(ps[1..]), l), sq);
    }
  }

  /** The sum over the corners of (dm*x + db)^2, through the moments. */
  function ShiftEnergy(mo: Moments, dm: real, db: real): real
  {
    dm * dm * mo.sxx + 2.0 * dm * db * mo.sx + db * db * mo.n
  }

  lemma SquareNonNegative(z: real)
    ensures z * z >= 0.0
  {
  }

  lemma ShiftStep(r: Moments, p: Point, dm: real, db: real)
    ensures ShiftEnergy(AddPoint(r, p), dm, db) == ShiftEnergy(r, dm, db) + (dm * p.x + db) * (dm * p.x + db)
    ensures (dm * p.x + db) * (dm * p.x + db) >= 0.0
  {
    SquareNonNegative(dm * p.x + db);
  }

  lemma {:induction false} ShiftEnergyNonNegative(ps: seq<Point>, dm: real, db: real)
    ensures ShiftEnergy(MomentsOf(ps), dm, db) >= 0.0
  {
    if ps != [] {
      ShiftEnergyNonNegative(ps[1..], dm, db);
      ShiftStep(MomentsOf(ps[1..]), ps[0], dm, db);
    }
  }

  /** Moving away from a solution of the normal equations adds the shift energy and nothing else. */
  lemma ErrorShift(mo: Moments, f: Line, l: Line)
    requires NormalEquations(mo, f)
    ensures ErrorOf(mo, l) == ErrorOf(mo, f) + ShiftEnergy(mo, l.m - f.m, l.b - f.b)
  {
  }

  /** `get_corner_line` is the least-squares fit: no line has a smaller squared error. */
  lemma CornerLineIsLeastSquares(ps: seq<Point>, l: Line)
    requires FitDefined(ps)
    ensures SquaredError(ps, CornerLine(ps)) <= SquaredError(ps, l)
  {
    var f := CornerLine(ps);
    SquaredErrorMoments(ps, f);
    SquaredErrorMoments(ps, l);
    ErrorShift(MomentsOf(ps), f, l);
    ShiftEnergyNonNegative(ps, l.m - f.m, l.b - f.b);
  }

  /**
    `get_two_corner_line`: the line through the first two corners. The
    slope divides by x1 - x2, so the two x values must differ.
  */
  function TwoCornerLine(corners: seq<Point>): (l: Line)
    requires |corners| >= 2 && corners[0].x != corners[1].x
    ensures OnLine(corners[0], l) && OnLine(corners[1], l)
    ensures forall k :: OnLine(corners[0], k) && OnLine(corners[1], k) ==> k == l
  {
    var p1, p2 := corners[0], corners[1];
    var m := (p1.y - p2.y) / (p1.x - p2.x);
    var l := Line(m, -m * p1.x + p1.y);
    assert m * (p1.x - p2.x) == p1.y - p2.y;
    assert forall k :: OnLine(p1, k) && OnLine(p2, k) ==> k == l by {
      forall k | OnLine(p1, k) && OnLine(p2, k)
        ensures k == l
      {
        assert k.m * (p1.x - p2.x) == p1.y - p2.y;
        assert (k.m - m) * (p1.x - p2.x) == 0.0;
      }
    }
    l
  }

  /**
    `get_intersection_point`: where y = m*x + b meets y = n*x + c. The
    division is by m - n, so the lines must not be parallel.
  */
  function IntersectionPoint(l1: Line, l2: Line): (p: Point)
    requires l1.m != l2.m
    ensures OnLine(p, l1) && OnLine(p, l2)
    ensures forall q :: OnLine(q, l1) && OnLine(q, l2) ==> q == p
  {
    var x := (l2.b - l1.b) / (l1.m - l2.m);
    var p := Point(x, l1.m * x + l1.b);
    assert x * (l1.m - l2.m) == l2.b - l1.b;
    assert forall q :: OnLine(q, l1) && OnLine(q, l2) ==> q == p by {
      forall q | OnLine(q, l1) && OnLine(q, l2)
        ensures q == p
      {
        assert q.x * (l1.m - l2.m) == l2.b - l1.b;
        assert (q.x - x) * (l1.m - l2.m) == 0.0;
      }
    }
    p
  }

  /** Line `i` is not parallel to the next one (the last one's next is the first). */
  predicate CrossesNext(lines: seq<Line>, i: int)
    requires 0 <= i < |lines|
  {
    lines[i].m != lines[(i + 1) % |lines|].m
  }

  predicate AdjacentNonParallel(lines: seq<Line>)
  {
    forall i :: 0 <= i < |lines| ==> CrossesNext(lines, i)
  }

  /**
    `get_intersection_points` (and `get_gear_corners` of the top-level
    gearbestfitcorners.py): the crossing of each line with the next, as
    `zip(lines, lines[1:] + lines[:1])` pairs them.
  */
  function IntersectionPoints(lines: seq<Line>): (corners: seq<Point>)
    requires AdjacentNonParallel(lines)
    ensures |corners| == |lines|
    ensures forall i :: 0 <= i < |lines| ==>
              OnLine(corners[i], lines[i]) && OnLine(corners[i], lines[(i + 1) % |lines|])
  {
    var r := seq(|lines|, i requires 0 <= i < |lines| => Crossing(lines, i));
    assert forall i :: 0 <= i < |lines| ==> r[i] == Crossing(lines, i);
    r
  }

  /** The crossing of line `i` with its successor. */
  function Crossing(lines: seq<Line>, i: int): (p: Point)
    requires AdjacentNonParallel(lines) && 0 <= i < |lines|
    ensures OnLine(p, lines[i]) && OnLine(p, lines[(i + 1) % |lines|])
  {
    assert CrossesNext(lines, i);
    IntersectionPoint(lines[i], lines[(i + 1) % |lines|])
  }

  /**
    The target rectangle is centred on the image: opposite corners mirror
    each other through (w/2, h/2), its sides are axis-parallel and measure
    tw and th, listed clockwise from the top right.
  */
  function TargetCorners(w: int, h: int, tw: real, th: real): (r: seq<Point>)
    ensures |r| == 4
    ensures r[0].x + r[2].x == w as real && r[0].y + r[2].y == h as real
    ensures r[1].x + r[3].x == w as real && r[1].y + r[3].y == h as real
    ensures r[0].x - r[3].x == tw && r[1].y - r[0].y == th
    ensures r[0].x == r[1].x && r[2].x == r[3].x && r[1].y == r[2].y && r[0].y == r[3].y
  {
    var cx, cy := w as real / 2.0, h as real / 2.0;
    [ Point(cx + tw / 2.0, cy - th / 2.0),
      Point(cx + tw / 2.0, cy + th / 2.0),
      Point(cx - tw / 2.0, cy + th / 2.0),
      Point(cx - tw / 2.0, cy - th / 2.0) ]
  }
}
