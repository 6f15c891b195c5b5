/** The least-squares line of admin_console/harness_limits.py (`fit_line`), over
    exact reals. */
module LeastSquares {
  import opened Options

  /** One run on a factor's axis; `level` names its planned point, "" when it has none. */
  datatype Point = Point(x: real, y: real, isBase: bool, excluded: bool, level: string)

  datatype Fit = Fit(slope: real, intercept: real, levels: nat, xMin: real, xMax: real)

  /** What tells two planned points apart: the level's name, or the place itself. */
  datatype Level = Named(name: string) | At(x: real)

  function LevelOf(p: Point): Level {
    if p.level != "" then Named(p.level) else At(p.x)
  }

  function Used(points: seq<Point>): seq<Point> {
    if points == [] then []
    else (if points[0].excluded then [] else [points[0]]) + Used(points[1..])
  }

  function Levels(u: seq<Point>): set<Level> {
    set i | 0 <= i < |u| :: LevelOf(u[i])
  }

  function Places(u: seq<Point>): set<real> {
    set i | 0 <= i < |u| :: u[i].x
  }

  function SumX(u: seq<Point>): real {
    if u == [] then 0.0 else u[0].x + SumX(u[1..])
  }

  function SumY(u: seq<Point>): real {
    if u == [] then 0.0 else u[0].y + SumY(u[1..])
  }

  function Times(a: real, b: real): real {
    a * b
  }

  function Spread(u: seq<Point>, meanX: real): real {
    if u == [] then 0.0 else Times(u[0].x - meanX, u[0].x - meanX) + Spread(u[1..], meanX)
  }

  function Covariance(u: seq<Point>, meanX: real, meanY: real): real {
    if u == [] then 0.0 else Times(u[0].x - meanX, u[0].y - meanY) + Covariance(u[1..], meanX, meanY)
  }

  function MinX(u: seq<Point>): real
    requires u != []
  {
    if |u| == 1 then u[0].x else var m := MinX(u[1..]); if u[0].x < m then u[0].x else m
  }

  function MaxX(u: seq<Point>): real
    requires u != []
  {
    if |u| == 1 then u[0].x else var m := MaxX(u[1..]); if u[0].x > m then u[0].x else m
  }

  function MeanX(u: seq<Point>): real
    requires u != []
  {
    SumX(u) / |u| as real
  }

  function MeanY(u: seq<Point>): real
    requires u != []
  {
    SumY(u) / |u| as real
  }

  function FitLine(points: seq<Point>): Option<Fit> {
    var u := Used(points);
    if |Levels(u)| < 2 || |Places(u)| < 2 then None
    else if u == [] || Spread(u, MeanX(u)) == 0.0 then None   // never: two places have a spread
    else
      var slope := Covariance(u, MeanX(u), MeanY(u)) / Spread(u, MeanX(u));
      Some(Fit(slope, MeanY(u) - slope * MeanX(u), |Levels(u)|, MinX(u), MaxX(u)))
  }

  /** The points that count: those not excluded, in their order. */
  lemma {:induction false} UsedAre(points: seq<Point>, p: Point)
    ensures p in Used(points) <==> p in points && !p.excluded
    ensures (forall q :: q in points ==> !q.excluded) ==> Used(points) == points
  {
    if points != [] {
      UsedAre(points[1..], p);
      assert points == [points[0]] + points[1..];
    }
  }

  /** Two points are one level when they carry one name, or neither has one and they share a place. */
  lemma SameLevelIff(p: Point, q: Point)
    ensures LevelOf(p) == LevelOf(q) <==> p.level == q.level && (p.level != "" || p.x == q.x)
  {
  }

  // ---- What it is measured against ------------------------------------------------

  /** How far a point is above the line y = intercept + slope * x. */
  function Residual(p: Point, slope: real, intercept: real): real {
    p.y - (intercept + slope * p.x)
  }

  /** The sum of squared residuals. */
  function Residuals(u: seq<Point>, slope: real, intercept: real): real {
    if u == [] then 0.0
    else Times(Residual(u[0], slope, intercept), Residual(u[0], slope, intercept)) + Residuals(u[1..], slope, intercept)
  }

  /** The sum of the residuals themselves. */
  function Total(u: seq<Point>, slope: real, intercept: real): real {
    if u == [] then 0.0 else Residual(u[0], slope, intercept) + Total(u[1..], slope, intercept)
  }

  /** The sum of the residuals weighted by the distance from `m`. */
  function Moment(u: seq<Point>, slope: real, intercept: real, m: real): real {
    if u == [] then 0.0 else Times(Residual(u[0], slope, intercept), u[0].x - m) + Moment(u[1..], slope, intercept, m)
  }

  /** The sum of the distances from `m`. */
  function Offset(u: seq<Point>, m: real): real {
    if u == [] then 0.0 else u[0].x - m + Offset(u[1..], m)
  }

  // ---- Tilting a line about `m` by `d` and raising it by `e` ----------------------------

  function Tilted(r: real, p: real, d: real, e: real): real {
    r - d * p - e
  }

  /** The sum of squares after the change, from sums before it. */
  function Shifted(r2: real, spread: real, n: real, moment: real, total: real, off: real, d: real, e: real): real {
    r2 + d * d * spread + e * e * n - 2.0 * d * moment - 2.0 * e * total + 2.0 * d * e * off
  }

  lemma ShiftedEmpty(d: real, e: real)
    ensures Shifted(0.0, 0.0, 0.0, 0.0, 0.0, 0.0, d, e) == 0.0
  {
  }

  lemma Square(r: real, p: real, d: real, e: real)
    ensures Times(Tilted(r, p, d, e), Tilted(r, p, d, e)) ==
            r * r + d * d * (p * p) + e * e - 2.0 * d * (r * p) - 2.0 * e * r + 2.0 * d * e * p
  {
  }

  lemma ShiftedStep(r2: real, spread: real, n: real, moment: real, total: real, off: real, d: real, e: real, r: real, p: real)
    ensures Times(Tilted(r, p, d, e), Tilted(r, p, d, e)) + Shifted(r2, spread, n, moment, total, off, d, e) ==
            Shifted(Times(r, r) + r2, Times(p, p) + spread, 1.0 + n, Times(r, p) + moment, r + total, p + off, d, e)
  {
    Square(r, p, d, e);
    assert d * d * (p * p + spread) == d * d * (p * p) + d * d * spread;
    assert 2.0 * d * (r * p + moment) == 2.0 * d * (r * p) + 2.0 * d * moment;
  }

  /** The line (s', c') is the line (s, c) tilted and raised. */
  predicate IsShift(s: real, c: real, s': real, c': real, d: real, e: real, m: real) {
    s' == s + d && c' == c + e - d * m
  }

  lemma ShiftedResidual(p: Point, s: real, c: real, s': real, c': real, d: real, e: real, m: real)
    requires IsShift(s, c, s', c', d, e, m)
    ensures Residual(p, s', c') == Tilted(Residual(p, s, c), p.x - m, d, e)
  {
  }

  lemma {:induction false} Expand(u: seq<Point>, s: real, c: real, s': real, c': real, d: real, e: real, m: real)
    requires IsShift(s, c, s', c', d, e, m)
    ensures Residuals(u, s', c') ==
            Shifted(Residuals(u, s, c), Spread(u, m), |u| as real, Moment(u, s, c, m), Total(u, s, c), Offset(u, m), d, e)
  {
    hide Shifted, Tilted, Residual, Times, IsShift;
    if u == [] {
      ShiftedEmpty(d, e);
    } else {
      var v := u[1..];
      Expand(v, s, c, s', c', d, e, m);
      ShiftedStep(Residuals(v, s, c), Spread(v, m), |v| as real, Moment(v, s, c, m), Total(v, s, c), Offset(v, m), d, e,
                  Residual(u[0], s, c), u[0].x - m);
      ShiftedResidual(u[0], s, c, s', c', d, e, m);
      assert |u| as real == 1.0 + |v| as real;
    }
  }

  // ---- The fitted line solves the normal equations -----------------------------------

  lemma {:induction false} OffsetIs(u: seq<Point>, m: real)
    ensures Offset(u, m) == SumX(u) - Times(|u| as real, m)
  {
    if u != [] {
      OffsetIs(u[1..], m);
      assert |u| as real == 1.0 + |u[1..]| as real;
    }
  }

  lemma CentredResidual(p: Point, s: real, mx: real, my: real)
    ensures Residual(p, s, my - s * mx) == (p.y - my) - Times(s, p.x - mx)
    ensures Times(Residual(p, s, my - s * mx), p.x - mx) == Times(p.x - mx, p.y - my) - Times(s, Times(p.x - mx, p.x - mx))
  {
  }

  lemma Distribute(s: real, a: real, b: real)
    ensures Times(s, a + b) == Times(s, a) + Times(s, b)
  {
  }

  lemma {:induction false} TotalIs(u: seq<Point>, s: real, c: real, mx: real, my: real)
    requires c == my - s * mx
    ensures Total(u, s, c) == (SumY(u) - Times(|u| as real, my)) - Times(s, Offset(u, mx))
  {
    if u != [] {
      TotalIs(u[1..], s, c, mx, my);
      CentredResidual(u[0], s, mx, my);
      TotalStep(u, s, c, mx, my);
    }
  }

  lemma TotalStep(u: seq<Point>, s: real, c: real, mx: real, my: real)
    requires u != [] && Residual(u[0], s, c) == (u[0].y - my) - Times(s, u[0].x - mx)
    requires Total(u[1..], s, c) == (SumY(u[1..]) - Times(|u[1..]| as real, my)) - Times(s, Offset(u[1..], mx))
    ensures Total(u, s, c) == (SumY(u) - Times(|u| as real, my)) - Times(s, Offset(u, mx))
  {
    var n := |u[1..]| as real;
    assert |u| as real == n + 1.0;
    assert Times(n + 1.0, my) == Times(n, my) + my;
    Distribute(s, u[0].x - mx, Offset(u[1..], mx));
    hide Residual, Times;
  }

  lemma {:induction false} MomentIs(u: seq<Point>, s: real, c: real, mx: real, my: real)
    requires c == my - s * mx
    ensures Moment(u, s, c, mx) == Covariance(u, mx, my) - Times(s, Spread(u, mx))
  {
    if u != [] {
      MomentIs(u[1..], s, c, mx, my);
      CentredResidual(u[0], s, mx, my);
      Distribute(s, Times(u[0].x - mx, u[0].x - mx), Spread(u[1..], mx));
      hide Residual, Times;
    }
  }

  lemma Positive(a: real, b: real)
    requires a > 0.0 && b > 0.0
    ensures Times(a, b) > 0.0
  {
  }

  lemma Negative(p: real)
    requires p < 0.0
    ensures Times(p, p) > 0.0
  {
    var q := 0.0 - p;
    Positive(q, q);
    Mirror(p, q);
  }

  lemma Mirror(p: real, q: real)
    requires q == 0.0 - p
    ensures Times(q, q) == Times(p, p)
  {
  }

  lemma SquareSign(p: real)
    ensures Times(p, p) >= 0.0 && (Times(p, p) == 0.0 <==> p == 0.0)
  {
    if p > 0.0 {
      Positive(p, p);
    } else if p < 0.0 {
      Negative(p);
    } else {
      assert Times(0.0, 0.0) == 0.0;
    }
    hide Times;
  }

  lemma {:induction false} SpreadSign(u: seq<Point>, m: real)
    ensures Spread(u, m) >= 0.0
    ensures Spread(u, m) == 0.0 ==> forall i :: 0 <= i < |u| ==> u[i].x == m
  {
    hide Times;
    if u != [] {
      SpreadSign(u[1..], m);
      SquareSign(u[0].x - m);
      forall i | 0 <= i < |u| && Spread(u, m) == 0.0 ensures u[i].x == m {
        if i > 0 { assert u[i] == u[1..][i - 1]; }
      }
    }
  }

  lemma AtMostOne(s: set<real>, m: real)
    requires s <= {m}
    ensures |s| <= 1
  {
    if s != {} { assert s == {m}; }
  }

  /** Two distinct places leave a spread about any centre. */
  lemma SpreadOfTwoPlaces(u: seq<Point>, m: real)
    requires |Places(u)| >= 2
    ensures u != [] && Spread(u, m) > 0.0
  {
    SpreadSign(u, m);
    if u == [] || Spread(u, m) == 0.0 {
      assert Places(u) <= {m};
      AtMostOne(Places(u), m);
    }
  }

  /** `fit_line` gives no line exactly below two levels or two places. */
  lemma FitExists(points: seq<Point>)
    ensures FitLine(points).None? <==> |Levels(Used(points))| < 2 || |Places(Used(points))| < 2
  {
    var u := Used(points);
    if |Places(u)| >= 2 {
      SpreadOfTwoPlaces(u, 0.0);
      SpreadOfTwoPlaces(u, MeanX(u));
    }
  }

  lemma MeansAreMeans(u: seq<Point>)
    requires u != []
    ensures Times(|u| as real, MeanX(u)) == SumX(u) && Times(|u| as real, MeanY(u)) == SumY(u)
  {
    Quotient(SumX(u), |u| as real);
    Quotient(SumY(u), |u| as real);
  }

  lemma Quotient(a: real, b: real)
    requires b != 0.0
    ensures Times(b, a / b) == a && Times(a / b, b) == a
  {
  }

  lemma NormalEquations(u: seq<Point>, slope: real, c: real)
    requires u != [] && Spread(u, MeanX(u)) > 0.0
    requires slope == Covariance(u, MeanX(u), MeanY(u)) / Spread(u, MeanX(u))
    requires c == MeanY(u) - slope * MeanX(u)
    ensures Offset(u, MeanX(u)) == 0.0 && Total(u, slope, c) == 0.0 && Moment(u, slope, c, MeanX(u)) == 0.0
  {
    var mx, my := MeanX(u), MeanY(u);
    MeansAreMeans(u);
    OffsetIs(u, mx);
    TotalIs(u, slope, c, mx, my);
    MomentIs(u, slope, c, mx, my);
    Quotient(Covariance(u, mx, my), Spread(u, mx));
    assert Times(slope, 0.0) == 0.0;
    hide Times, MeanX, MeanY;
  }

  lemma ShiftedBalanced(r2: real, spread: real, n: real, d: real, e: real)
    ensures Shifted(r2, spread, n, 0.0, 0.0, 0.0, d, e) == r2 + Times(Times(d, d), spread) + Times(Times(e, e), n)
  {
  }

  /** The line `fit_line` computes for the points that count. */
  ghost predicate IsFitted(u: seq<Point>, slope: real, intercept: real) {
    && u != [] && Spread(u, MeanX(u)) > 0.0
    && slope == Covariance(u, MeanX(u), MeanY(u)) / Spread(u, MeanX(u))
    && intercept == MeanY(u) - slope * MeanX(u)
  }

  /** Any line's residuals are the fitted line's plus what it differs by. */
  lemma ResidualsOfAnyLine(u: seq<Point>, s: real, c: real, s': real, c': real, d: real, e: real)
    requires IsFitted(u, s, c) && IsShift(s, c, s', c', d, e, MeanX(u))
    ensures Residuals(u, s', c') == Residuals(u, s, c) + Times(Times(d, d), Spread(u, MeanX(u))) + Times(Times(e, e), |u| as real)
  {
    var m := MeanX(u);
    NormalEquations(u, s, c);
    Expand(u, s, c, s', c', d, e, m);
    ShiftedBalanced(Residuals(u, s, c), Spread(u, m), |u| as real, d, e);
    hide *;
  }

  lemma WeightedSquareSign(d: real, w: real)
    requires w > 0.0
    ensures Times(Times(d, d), w) >= 0.0 && (Times(Times(d, d), w) == 0.0 <==> d == 0.0)
  {
    SquareSign(d);
    if d != 0.0 { Positive(Times(d, d), w); }
  }

  lemma FittedIsBest(u: seq<Point>, s: real, c: real, s': real, c': real)
    requires IsFitted(u, s, c)
    ensures Residuals(u, s, c) <= Residuals(u, s', c')
    ensures Residuals(u, s, c) == Residuals(u, s', c') ==> s' == s && c' == c
  {
    var d := s' - s;
    var e := c' - c + d * MeanX(u);
    ResidualsOfAnyLine(u, s, c, s', c', d, e);
    WeightedSquareSign(d, Spread(u, MeanX(u)));
    WeightedSquareSign(e, |u| as real);
    assert d == 0.0 ==> e == c' - c;
    hide *;
  }

  lemma FitIsFitted(points: seq<Point>)
    requires FitLine(points).Some?
    ensures IsFitted(Used(points), FitLine(points).value.slope, FitLine(points).value.intercept)
  {
    FitExists(points);
    SpreadOfTwoPlaces(Used(points), 0.0);
    SpreadOfTwoPlaces(Used(points), MeanX(Used(points)));
  }

  /** No line has a smaller sum of squared residuals over the points that count,
      and no other line has the same. */
  lemma FitIsBest(points: seq<Point>, slope: real, intercept: real)
    requires FitLine(points).Some?
    ensures var f, u := FitLine(points).value, Used(points);
            && Residuals(u, f.slope, f.intercept) <= Residuals(u, slope, intercept)
            && (Residuals(u, f.slope, f.intercept) == Residuals(u, slope, intercept) ==> slope == f.slope && intercept == f.intercept)
  {
    var f, u := FitLine(points).value, Used(points);
    FitIsFitted(points);
    FittedIsBest(u, f.slope, f.intercept, slope, intercept);
    hide *;
  }

  lemma {:induction false} NoResiduals(u: seq<Point>, slope: real, intercept: real, i: nat)
    requires i < |u|
    ensures Residuals(u, slope, intercept) >= 0.0
    ensures Residuals(u, slope, intercept) == 0.0 ==> Residual(u[i], slope, intercept) == 0.0
  {
    hide Times, Residual;
    SquareSign(Residual(u[0], slope, intercept));
    if |u| > 1 {
      NoResiduals(u[1..], slope, intercept, if i == 0 then 0 else i - 1);
    }
  }

  lemma LineThroughTwo(u: seq<Point>) returns (slope: real, intercept: real)
    requires |u| == 2 && u[0].x != u[1].x
    ensures Residuals(u, slope, intercept) == 0.0
  {
    slope := (u[1].y - u[0].y) / (u[1].x - u[0].x);
    intercept := u[0].y - slope * u[0].x;
    Quotient(u[1].y - u[0].y, u[1].x - u[0].x);
    assert Residual(u[0], slope, intercept) == 0.0;
    assert slope * u[1].x - slope * u[0].x == Times(slope, u[1].x - u[0].x);
    assert Residual(u[1], slope, intercept) == 0.0;
    assert Times(0.0, 0.0) == 0.0;
    hide Residual, Times;
    assert u[1..][1..] == [] && u[1..][0] == u[1];
    assert Residuals(u[1..], slope, intercept) == 0.0;
  }

  /** Through exactly two points, the line passes through both. */
  lemma TwoPoints(points: seq<Point>)
    requires FitLine(points).Some? && |Used(points)| == 2
    ensures var f, u := FitLine(points).value, Used(points);
            u[0].y == f.intercept + f.slope * u[0].x && u[1].y == f.intercept + f.slope * u[1].x
  {
    var f, u := FitLine(points).value, Used(points);
    FitExists(points);
    if u[0].x == u[1].x {
      assert Places(u) <= {u[0].x};
      AtMostOne(Places(u), u[0].x);
    }
    var slope, intercept := LineThroughTwo(u);
    FitIsBest(points, slope, intercept);
    NoResiduals(u, f.slope, f.intercept, 0);
    NoResiduals(u, f.slope, f.intercept, 1);
    hide Residuals, FitLine;
  }

  /** The range of the fit is the range of the points that count. */
  lemma FitRange(points: seq<Point>)
    requires FitLine(points).Some?
    ensures var f, u := FitLine(points).value, Used(points);
            && f.levels == |Levels(u)|
            && (forall i :: 0 <= i < |u| ==> f.xMin <= u[i].x <= f.xMax)
            && f.xMin in Places(u) && f.xMax in Places(u)
  {
    var u := Used(points);
    RangeOf(u);
    hide MeanX, MeanY, Spread, Covariance, MinX, MaxX;
    var i :| 0 <= i < |u| && u[i].x == MinX(u);
    var j :| 0 <= j < |u| && u[j].x == MaxX(u);
  }

  lemma {:induction false} RangeOf(u: seq<Point>)
    requires u != []
    ensures forall i :: 0 <= i < |u| ==> MinX(u) <= u[i].x <= MaxX(u)
    ensures exists i :: 0 <= i < |u| && u[i].x == MinX(u)
    ensures exists i :: 0 <= i < |u| && u[i].x == MaxX(u)
  {
    if |u| == 1 {
      assert u[0].x == MinX(u) == MaxX(u);
    } else {
      RangeOf(u[1..]);
      var i :| 0 <= i < |u[1..]| && u[1..][i].x == MinX(u[1..]);
      var j :| 0 <= j < |u[1..]| && u[1..][j].x == MaxX(u[1..]);
      assert u[i + 1].x == MinX(u[1..]) && u[j + 1].x == MaxX(u[1..]);
      forall k | 0 <= k < |u| ensures MinX(u) <= u[k].x <= MaxX(u) {
        if k > 0 { assert u[k] == u[1..][k - 1]; }
      }
      assert u[0].x == MinX(u) || u[i + 1].x == MinX(u);
      assert u[0].x == MaxX(u) || u[j + 1].x == MaxX(u);
    }
  }
}
