/** Predicting a metric for a fleet (admin_console/harness_limits.py, `predict`,
    `_contribution`, `evaluate`, `_check` and the fleets that are swept), over exact
    reals.  The records enter as what the prediction reads of them: per factor and
    operation, the points and the base place on the factor's axis. */
module Prediction {
  import opened Options
  import opened LeastSquares

  type Fleet = map<string, real>

  const CLUSTERS := "clusters"
  const CHURN := "churn"
  const FAILING_PODS := "failing_pods"

  /** One operation's runs of a factor, and where its base runs sit on the axis. */
  datatype Series = Series(points: seq<Point>, baseX: Option<real>)

  /** `known`: the factor is a fleet input.  `load`: it is a load the runner
      applies, which no prediction moves with.  `dataBaseX`: the data's base point
      on its axis. */
  datatype Factor = Factor(name: string, known: bool, load: bool, dataBaseX: Option<real>, series: seq<Series>)

  /** `bases`: the base value of each operation that has one. */
  datatype Measured = Measured(bases: seq<real>, factors: seq<Factor>)

  datatype Contribution = Contribution(fit: Option<Fit>, delta: real)

  function FleetValue(f: Factor, fleet: Fleet): Option<real> {
    if f.known && f.name in fleet then Some(fleet[f.name]) else None
  }

  /** Where the growth of a series starts. */
  function BaseX(f: Factor, s: Series, fit: Option<Fit>): Option<real> {
    if s.baseX.Some? then s.baseX
    else if f.known && f.dataBaseX.Some? then f.dataBaseX
    else if fit.Some? then Some(fit.value.xMin)
    else None
  }

  /** The series with points of the factor's own; the others contribute nothing. */
  function Candidates(series: seq<Series>): seq<Series> {
    if series == [] then []
    else (if exists i | 0 <= i < |series[0].points| :: !series[0].points[i].isBase then [series[0]] else []) + Candidates(series[1..])
  }

  function Contribute(f: Factor, s: Series, fleet: Fleet): Contribution {
    var fit := FitLine(s.points);
    var baseX := BaseX(f, s, fit);
    var fleetX := FleetValue(f, fleet);
    Contribution(fit,
      if fit.Some? && fleetX.Some? && baseX.Some? then Rise(fit.value.slope, baseX.value, fleetX.value) else 0.0)
  }

  /** What a line of this slope gains between two places. */
  function Rise(slope: real, from: real, to: real): real {
    slope * (to - from)
  }

  /** A fitted line beats none; then the largest increase. */
  predicate Better(c: Contribution, than: Contribution) {
    (c.fit.Some? && than.fit.None?) || (c.fit.Some? == than.fit.Some? && c.delta > than.delta)
  }

  /** The first of the best contributions. */
  function Best(f: Factor, candidates: seq<Series>, fleet: Fleet): Contribution
    requires candidates != []
  {
    var last := |candidates| - 1;
    var c := Contribute(f, candidates[last], fleet);
    if last == 0 then c
    else
      var b := Best(f, candidates[..last], fleet);
      if Better(c, b) then c else b
  }

  function FactorDelta(f: Factor, fleet: Fleet): real {
    if f.load || Candidates(f.series) == [] then 0.0 else Best(f, Candidates(f.series), fleet).delta
  }

  function Growth(factors: seq<Factor>, fleet: Fleet): real {
    if factors == [] then 0.0 else FactorDelta(factors[0], fleet) + Growth(factors[1..], fleet)
  }

  function Largest(values: seq<real>): real
    requires values != []
  {
    if |values| == 1 then values[0]
    else var m := Largest(values[1..]); if values[0] >= m then values[0] else m
  }

  function Predict(m: Measured, fleet: Fleet): Option<real> {
    if m.bases == [] then None else Some(Largest(m.bases) + Growth(m.factors, fleet))
  }

  // ---- What a prediction is -----------------------------------------------------------

  lemma {:induction false} LargestIs(values: seq<real>)
    requires values != []
    ensures Largest(values) in values && forall v :: v in values ==> v <= Largest(values)
  {
    if |values| > 1 {
      LargestIs(values[1..]);
      assert forall v :: v in values ==> v == values[0] || v in values[1..];
    }
  }

  lemma {:induction false} CandidatesAre(series: seq<Series>, s: Series)
    ensures s in Candidates(series) <==> s in series && exists p :: p in s.points && !p.isBase
  {
    if series != [] {
      CandidatesAre(series[1..], s);
      assert s in series <==> s == series[0] || s in series[1..];
    }
  }

  /** Where a series' growth is nothing and how it grows from there.  It starts at the place of
      the series' own base runs; without any, at the data's base point, if the factor is a
      fleet input; without that, at the lowest place of its line.  From there it follows the
      line's slope.  Without a line, or without the input in the fleet, there is none. */
  lemma GrowthFromBase(f: Factor, s: Series, fleet: Fleet)
    ensures var c := Contribute(f, s, fleet);
            && c.fit == FitLine(s.points)
            && (c.fit.None? || !f.known || f.name !in fleet ==> c.delta == 0.0)
    ensures FitLine(s.points).Some? && f.known && f.name in fleet ==>
      var fit := FitLine(s.points).value;
      var start := if s.baseX.Some? then s.baseX.value else if f.dataBaseX.Some? then f.dataBaseX.value else fit.xMin;
      Contribute(f, s, fleet).delta == fit.slope * (fleet[f.name] - start)
  {
    hide FitLine;
  }

  function Sum(terms: seq<real>): real {
    if terms == [] then 0.0 else terms[0] + Sum(terms[1..])
  }

  /** What one factor adds: nothing for a load or without a candidate, and otherwise what some
      candidate adds that no candidate is better than. */
  ghost predicate Adds(f: Factor, fleet: Fleet, term: real) {
    if f.load || forall s :: s in f.series ==> forall p :: p in s.points ==> p.isBase then term == 0.0
    else exists s :: Candidate(f, s) && Contribute(f, s, fleet).delta == term && Unbeaten(f, s, fleet)
  }

  ghost predicate Candidate(f: Factor, s: Series) {
    s in f.series && exists p :: p in s.points && !p.isBase
  }

  /** No candidate has a line where `s` has none, and none with as much of a line adds more. */
  ghost predicate Unbeaten(f: Factor, s: Series, fleet: Fleet) {
    forall other :: Candidate(f, other) ==>
      var c, o := Contribute(f, s, fleet), Contribute(f, other, fleet);
      (o.fit.Some? ==> c.fit.Some?) && (o.fit.Some? == c.fit.Some? ==> o.delta <= c.delta)
  }

  lemma FactorAdds(f: Factor, fleet: Fleet)
    ensures Adds(f, fleet, FactorDelta(f, fleet))
  {
    var cs := Candidates(f.series);
    forall s ensures s in cs <==> Candidate(f, s) { CandidatesAre(f.series, s); }
    if !f.load && cs != [] {
      assert cs[0] in cs;
      BestIsBest(f, cs, fleet);
      var i :| 0 <= i < |cs| && Best(f, cs, fleet) == Contribute(f, cs[i], fleet);
      assert cs[i] in cs;
      forall other | Candidate(f, other)
        ensures var c, o := Contribute(f, cs[i], fleet), Contribute(f, other, fleet);
                (o.fit.Some? ==> c.fit.Some?) && (o.fit.Some? == c.fit.Some? ==> o.delta <= c.delta)
      {
        var j :| 0 <= j < |cs| && cs[j] == other;
      }
      assert Unbeaten(f, cs[i], fleet);
    } else if !f.load {
      forall s | s in f.series ensures forall p :: p in s.points ==> p.isBase {
        assert !Candidate(f, s);
      }
    }
  }

  lemma {:induction false} GrowthIsSum(factors: seq<Factor>, fleet: Fleet) returns (terms: seq<real>)
    ensures |terms| == |factors| && Growth(factors, fleet) == Sum(terms)
    ensures forall i :: 0 <= i < |terms| ==> Adds(factors[i], fleet, terms[i])
  {
    if factors == [] {
      terms := [];
    } else {
      var rest := GrowthIsSum(factors[1..], fleet);
      FactorAdds(factors[0], fleet);
      terms := [FactorDelta(factors[0], fleet)] + rest;
      assert terms[1..] == rest;
    }
  }

  /** A prediction is the greatest base value plus what each factor adds; there is none exactly
      when no operation has a base value. */
  lemma PredictIs(m: Measured, fleet: Fleet) returns (base: real, terms: seq<real>)
    ensures Predict(m, fleet).None? <==> m.bases == []
    ensures m.bases != [] ==>
      && base in m.bases && (forall b :: b in m.bases ==> b <= base)
      && |terms| == |m.factors| && (forall i :: 0 <= i < |terms| ==> Adds(m.factors[i], fleet, terms[i]))
      && Predict(m, fleet) == Some(base + Sum(terms))
  {
    base := 0.0;
    terms := GrowthIsSum(m.factors, fleet);
    if m.bases != [] {
      LargestIs(m.bases);
      base := Largest(m.bases);
    }
  }

  // ---- Fleets along a sweep -------------------------------------------------------

  /** The base fleet with `clusters` clusters of the same shape. */
  function ScaledFleet(base: Fleet, clusters: real): Fleet
    requires CLUSTERS in base && CHURN in base && FAILING_PODS in base
  {
    var ratio := if base[CLUSTERS] > 0.0 then clusters / base[CLUSTERS] else 1.0;
    base[CLUSTERS := clusters][CHURN := base[CHURN] * ratio][FAILING_PODS := base[FAILING_PODS] * ratio]
  }

  /** The two families of fleets `capacities` is asked about. */
  datatype Sweep = Clusters(base: Fleet) | OneFactor(base: Fleet, name: string)

  predicate ValidSweep(w: Sweep) {
    w.Clusters? ==> CLUSTERS in w.base && CHURN in w.base && FAILING_PODS in w.base
  }

  function FleetAt(w: Sweep, x: real): Fleet
    requires ValidSweep(w)
  {
    match w
    case Clusters(base) => ScaledFleet(base, x)
    case OneFactor(base, name) => base[name := x]
  }

  /** The fleet-wide inputs grow in proportion to the clusters, every other input stays; a
      fleet of no clusters keeps even those. */
  lemma ScalesInProportion(base: Fleet, x: real)
    requires ValidSweep(Clusters(base))
    ensures ScaledFleet(base, x).Keys == base.Keys && ScaledFleet(base, x)[CLUSTERS] == x
    ensures base[CLUSTERS] > 0.0 ==>
      && Times(ScaledFleet(base, x)[CHURN], base[CLUSTERS]) == Times(base[CHURN], x)
      && Times(ScaledFleet(base, x)[FAILING_PODS], base[CLUSTERS]) == Times(base[FAILING_PODS], x)
    ensures forall k :: k in base && k !in {CLUSTERS, CHURN, FAILING_PODS} ==> ScaledFleet(base, x)[k] == base[k]
    ensures base[CLUSTERS] <= 0.0 ==> forall k :: k in base && k != CLUSTERS ==> ScaledFleet(base, x)[k] == base[k]
  {
    if base[CLUSTERS] > 0.0 {
      Proportion(base[CHURN], base[CLUSTERS], x);
      Proportion(base[FAILING_PODS], base[CLUSTERS], x);
    }
  }

  lemma Proportion(q: real, b: real, x: real)
    requires b > 0.0
    ensures Times(q * (x / b), b) == Times(q, x)
  {
  }

  /** To its own size a fleet scales to itself, also with no clusters. */
  lemma ScalesToItself(base: Fleet)
    requires ValidSweep(Clusters(base))
    ensures ScaledFleet(base, base[CLUSTERS]) == base
  {
    var ratio := if base[CLUSTERS] > 0.0 then base[CLUSTERS] / base[CLUSTERS] else 1.0;
    assert ratio == 1.0;
  }

  // ---- Convexity ---------------------------------------------------------------------

  /** The point a share `t` of the way from `a` to `b`. */
  function Mix(t: real, a: real, b: real): real {
    a + t * (b - a)
  }

  lemma MixAdd(t: real, a: real, b: real, c: real, d: real)
    ensures Mix(t, a + c, b + d) == Mix(t, a, b) + Mix(t, c, d)
  {
  }

  lemma MixAffine(t: real, a: real, b: real, k: real, c: real)
    ensures Rise(k, c, Mix(t, a, b)) == Mix(t, Rise(k, c, a), Rise(k, c, b))
  {
  }

  lemma MixMonotone(t: real, a: real, b: real, a': real, b': real)
    requires 0.0 <= t <= 1.0 && a <= a' && b <= b'
    ensures Mix(t, a, b) <= Mix(t, a', b')
  {
    assert (1.0 - t) * a <= (1.0 - t) * a';
    assert t * b <= t * b';
    assert Mix(t, a, b) == (1.0 - t) * a + t * b;
    assert Mix(t, a', b') == (1.0 - t) * a' + t * b';
  }

  lemma MixSame(t: real, a: real)
    ensures Mix(t, a, a) == a
  {
  }

  lemma MixScaled(t: real, x: real, y: real, b: real, k: real)
    requires b > 0.0
    ensures k * (Mix(t, x, y) / b) == Mix(t, k * (x / b), k * (y / b))
  {
    assert Mix(t, x, y) / b == Mix(t, x / b, y / b);
  }

  /** Every input of a swept fleet moves along a straight line. */
  lemma SweepIsStraight(w: Sweep, x: real, y: real, t: real, name: string)
    requires ValidSweep(w)
    ensures name in FleetAt(w, x) <==> name in FleetAt(w, Mix(t, x, y))
    ensures name in FleetAt(w, y) <==> name in FleetAt(w, Mix(t, x, y))
    ensures name in FleetAt(w, x) ==>
              FleetAt(w, Mix(t, x, y))[name] == Mix(t, FleetAt(w, x)[name], FleetAt(w, y)[name])
  {
    if name in FleetAt(w, x) {
      if w.Clusters? && w.base[CLUSTERS] > 0.0 && (name == CHURN || name == FAILING_PODS) {
        MixScaled(t, x, y, w.base[CLUSTERS], w.base[name]);
      } else if name in w.base {
        MixSame(t, w.base[name]);
      }
    }
  }

  lemma ContributionIsStraight(f: Factor, s: Series, w: Sweep, x: real, y: real, t: real)
    requires ValidSweep(w)
    ensures var a, b, m := Contribute(f, s, FleetAt(w, x)), Contribute(f, s, FleetAt(w, y)), Contribute(f, s, FleetAt(w, Mix(t, x, y)));
            a.fit == b.fit == m.fit && m.delta == Mix(t, a.delta, b.delta)
  {
    hide FitLine, FleetAt, Mix, Rise;
    SweepIsStraight(w, x, y, t, f.name);
    var fit := FitLine(s.points);
    var baseX := BaseX(f, s, fit);
    if f.known && f.name in FleetAt(w, x) && fit.Some? && baseX.Some? {
      MixAffine(t, FleetAt(w, x)[f.name], FleetAt(w, y)[f.name], fit.value.slope, baseX.value);
    } else {
      MixSame(t, 0.0);
    }
  }

  /** The chosen contribution is one of them, and none of them is better. */
  lemma {:induction false} BestIsBest(f: Factor, cs: seq<Series>, fleet: Fleet)
    requires cs != []
    ensures exists i :: 0 <= i < |cs| && Best(f, cs, fleet) == Contribute(f, cs[i], fleet)
    ensures forall i :: 0 <= i < |cs| ==> !Better(Contribute(f, cs[i], fleet), Best(f, cs, fleet))
  {
    hide Contribute;
    var last := |cs| - 1;
    if last == 0 {
      assert Best(f, cs, fleet) == Contribute(f, cs[0], fleet);
    } else {
      BestIsBest(f, cs[..last], fleet);
      var i :| 0 <= i < last && Best(f, cs[..last], fleet) == Contribute(f, cs[..last][i], fleet);
      assert cs[..last][i] == cs[i];
      assert Best(f, cs, fleet) == Contribute(f, cs[last], fleet) || Best(f, cs, fleet) == Contribute(f, cs[i], fleet);
      forall j | 0 <= j < |cs| ensures !Better(Contribute(f, cs[j], fleet), Best(f, cs, fleet)) {
        if j < last { assert cs[..last][j] == cs[j]; }
      }
    }
  }

  /** The best contribution lies below the straight line between its ends. */
  lemma BestIsConvex(f: Factor, cs: seq<Series>, w: Sweep, x: real, y: real, t: real)
    requires ValidSweep(w) && cs != [] && 0.0 <= t <= 1.0
    ensures Best(f, cs, FleetAt(w, Mix(t, x, y))).delta <=
            Mix(t, Best(f, cs, FleetAt(w, x)).delta, Best(f, cs, FleetAt(w, y)).delta)
  {
    var fx, fy, fm := FleetAt(w, x), FleetAt(w, y), FleetAt(w, Mix(t, x, y));
    BestIsBest(f, cs, fm);
    BestIsBest(f, cs, fx);
    BestIsBest(f, cs, fy);
    var i :| 0 <= i < |cs| && Best(f, cs, fm) == Contribute(f, cs[i], fm);
    var j :| 0 <= j < |cs| && Best(f, cs, fx) == Contribute(f, cs[j], fx);
    var k :| 0 <= k < |cs| && Best(f, cs, fy) == Contribute(f, cs[k], fy);
    ContributionIsStraight(f, cs[i], w, x, y, t);
    ContributionIsStraight(f, cs[j], w, x, y, t);
    ContributionIsStraight(f, cs[k], w, x, y, t);
    hide Contribute, FleetAt, Mix;
    MixMonotone(t, Contribute(f, cs[i], fx).delta, Contribute(f, cs[i], fy).delta, Best(f, cs, fx).delta, Best(f, cs, fy).delta);
  }

  lemma FactorIsConvex(f: Factor, w: Sweep, x: real, y: real, t: real)
    requires ValidSweep(w) && 0.0 <= t <= 1.0
    ensures FactorDelta(f, FleetAt(w, Mix(t, x, y))) <= Mix(t, FactorDelta(f, FleetAt(w, x)), FactorDelta(f, FleetAt(w, y)))
  {
    hide FleetAt, Mix, Best, Candidates;
    if f.load || Candidates(f.series) == [] {
      MixSame(t, 0.0);
    } else {
      BestIsConvex(f, Candidates(f.series), w, x, y, t);
    }
  }

  lemma {:induction false} GrowthIsConvex(factors: seq<Factor>, w: Sweep, x: real, y: real, t: real)
    requires ValidSweep(w) && 0.0 <= t <= 1.0
    ensures Growth(factors, FleetAt(w, Mix(t, x, y))) <= Mix(t, Growth(factors, FleetAt(w, x)), Growth(factors, FleetAt(w, y)))
  {
    hide FleetAt, Mix, FactorDelta;
    if factors == [] {
      MixSame(t, 0.0);
    } else {
      GrowthIsConvex(factors[1..], w, x, y, t);
      FactorIsConvex(factors[0], w, x, y, t);
      var fx, fy := FleetAt(w, x), FleetAt(w, y);
      MixAdd(t, FactorDelta(factors[0], fx), FactorDelta(factors[0], fy), Growth(factors[1..], fx), Growth(factors[1..], fy));
    }
  }

  /** A prediction is convex along every fleet that is swept: between two inputs it
      is at most the straight line between their predictions.  Whether there is a
      prediction at all does not depend on the fleet. */
  lemma PredictIsConvex(m: Measured, w: Sweep, x: real, y: real, t: real)
    requires ValidSweep(w) && 0.0 <= t <= 1.0
    ensures var p, q, r := Predict(m, FleetAt(w, x)), Predict(m, FleetAt(w, y)), Predict(m, FleetAt(w, Mix(t, x, y)));
            && p.Some? == q.Some? == r.Some? == (m.bases != [])
            && (r.Some? ==> r.value <= Mix(t, p.value, q.value))
  {
    GrowthIsConvex(m.factors, w, x, y, t);
    if m.bases != [] {
      var b := Largest(m.bases);
      MixSame(t, b);
      MixAdd(t, b, b, Growth(m.factors, FleetAt(w, x)), Growth(m.factors, FleetAt(w, y)));
    }
    hide FleetAt, Mix, Growth;
  }

  // ---- Checks ---------------------------------------------------------------------------

  const EPSILON := 0.000000001

  datatype Line = Line(value: real, critical: bool)

  datatype Status = Pass | Warn | Fail | NoData | NoLimit

  predicate Crossed(value: real, line: Line) {
    value > line.value + EPSILON
  }

  /** Fail above a critical line, warn above another. */
  function Evaluate(value: real, lines: seq<Line>): Status {
    if exists i | 0 <= i < |lines| :: Crossed(value, lines[i]) && lines[i].critical then Fail
    else if exists i | 0 <= i < |lines| :: Crossed(value, lines[i]) then Warn
    else Pass
  }

  /** The three outcomes against the lines themselves. */
  lemma EvaluateMeans(value: real, lines: seq<Line>)
    ensures Evaluate(value, lines) == Fail <==> exists l :: l in lines && l.critical && value > l.value + EPSILON
    ensures Evaluate(value, lines) == Pass <==> forall l :: l in lines ==> value <= l.value + EPSILON
    ensures Evaluate(value, lines) in {Pass, Warn, Fail}
  {
    if l :| l in lines && value > l.value + EPSILON {
      var i :| 0 <= i < |lines| && lines[i] == l;
      assert Crossed(value, lines[i]);
    }
    if l :| l in lines && l.critical && value > l.value + EPSILON {
      var i :| 0 <= i < |lines| && lines[i] == l;
      assert Crossed(value, lines[i]) && lines[i].critical;
    }
  }

  /** One check: what was measured and the thresholds it is held against. */
  datatype CheckSpec = CheckSpec(measured: Measured, lines: seq<Line>)

  function CheckAt(c: CheckSpec, fleet: Fleet): Status {
    match Predict(c.measured, fleet)
    case None => NoData
    case Some(value) => if c.lines == [] then NoLimit else Evaluate(value, c.lines)
  }

  /** No prediction without a base value, no verdict without a line, else the prediction against the lines. */
  lemma CheckMeans(c: CheckSpec, fleet: Fleet)
    ensures CheckAt(c, fleet) == NoData <==> c.measured.bases == []
    ensures CheckAt(c, fleet) == NoLimit <==> c.measured.bases != [] && c.lines == []
    ensures CheckAt(c, fleet) == Fail <==>
      Predict(c.measured, fleet).Some? && exists l :: l in c.lines && l.critical && Predict(c.measured, fleet).value > l.value + EPSILON
    ensures CheckAt(c, fleet) == Pass <==>
      c.lines != [] && Predict(c.measured, fleet).Some? && forall l :: l in c.lines ==> Predict(c.measured, fleet).value <= l.value + EPSILON
  {
    if Predict(c.measured, fleet).Some? { EvaluateMeans(Predict(c.measured, fleet).value, c.lines); }
  }

  predicate FailsAt(c: CheckSpec, w: Sweep, x: real)
    requires ValidSweep(w)
  {
    CheckAt(c, FleetAt(w, x)) == Fail
  }

  /** Whether the base point itself is past the check's threshold. */
  predicate PastAtBase(c: CheckSpec) {
    c.measured.bases != [] && c.lines != [] && Evaluate(Largest(c.measured.bases), c.lines) != Pass
  }

  /** Past at base: some line lies below the greatest base value, whatever the fleet. */
  lemma PastAtBaseIff(c: CheckSpec)
    ensures PastAtBase(c) <==>
      exists b, l :: b in c.measured.bases && l in c.lines && (forall o :: o in c.measured.bases ==> o <= b) && Crossed(b, l)
  {
    if c.measured.bases != [] {
      LargestIs(c.measured.bases);
      EvaluateMeans(Largest(c.measured.bases), c.lines);
    }
  }

  lemma FailingIsUpward(lines: seq<Line>, v: real, v': real)
    requires Evaluate(v, lines) == Fail && v <= v'
    ensures Evaluate(v', lines) == Fail
  {
    var i :| 0 <= i < |lines| && Crossed(v, lines[i]) && lines[i].critical;
    assert Crossed(v', lines[i]);
  }

  lemma ShareBounds(a: real, b: real)
    requires 0.0 <= a <= b && 0.0 < b
    ensures 0.0 <= a / b <= 1.0 && a / b * b == a
  {
  }

  lemma BetweenAsMix(x: real, y: real, z: real) returns (t: real)
    requires x <= y <= z
    ensures 0.0 <= t <= 1.0 && Mix(t, x, z) == y
  {
    if x == z {
      t := 0.0;
    } else {
      t := (y - x) / (z - x);
      ShareBounds(y - x, z - x);
    }
  }

  lemma MixAtMost(t: real, a: real, b: real)
    requires 0.0 <= t <= 1.0
    ensures Mix(t, a, b) <= a || Mix(t, a, b) <= b
  {
    if a >= b { MixMonotone(t, a, b, a, a); MixSame(t, a); } else { MixMonotone(t, a, b, b, b); MixSame(t, b); }
  }

  /** A check that passes at two inputs passes at every input between them. */
  lemma PassingIsAnInterval(c: CheckSpec, w: Sweep, x: real, y: real, z: real)
    requires ValidSweep(w) && x <= y <= z
    requires !FailsAt(c, w, x) && !FailsAt(c, w, z)
    ensures !FailsAt(c, w, y)
  {
    var t := BetweenAsMix(x, y, z);
    PredictIsConvex(c.measured, w, x, z, t);
    var p, q, r := Predict(c.measured, FleetAt(w, x)), Predict(c.measured, FleetAt(w, z)), Predict(c.measured, FleetAt(w, y));
    if FailsAt(c, w, y) {
      MixAtMost(t, p.value, q.value);
      FailingIsUpward(c.lines, r.value, Mix(t, p.value, q.value));
      if Mix(t, p.value, q.value) <= p.value {
        FailingIsUpward(c.lines, Mix(t, p.value, q.value), p.value);
      } else {
        FailingIsUpward(c.lines, Mix(t, p.value, q.value), q.value);
      }
    }
  }

  /** The fleet stands where every line of the factor starts. */
  ghost predicate OnBase(f: Factor, fleet: Fleet) {
    forall s :: Candidate(f, s) && FitLine(s.points).Some? && f.known && f.name in fleet ==>
      var fit := FitLine(s.points).value;
      fleet[f.name] == (if s.baseX.Some? then s.baseX.value else if f.dataBaseX.Some? then f.dataBaseX.value else fit.xMin)
  }

  lemma AddsNothingOnBase(f: Factor, fleet: Fleet, term: real)
    requires OnBase(f, fleet) && Adds(f, fleet, term)
    ensures term == 0.0
  {
    hide FitLine, Unbeaten;
    if s :| Candidate(f, s) && Contribute(f, s, fleet).delta == term { GrowthFromBase(f, s, fleet); }
  }

  lemma {:induction false} SumOfZeros(terms: seq<real>)
    requires forall i :: 0 <= i < |terms| ==> terms[i] == 0.0
    ensures Sum(terms) == 0.0
  {
    if terms != [] { SumOfZeros(terms[1..]); }
  }

  /** At a fleet on every base place the prediction is the greatest base value. */
  lemma PredictAtBase(m: Measured, fleet: Fleet)
    requires m.bases != [] && forall f :: f in m.factors ==> OnBase(f, fleet)
    ensures var p := Predict(m, fleet); p.Some? && p.value in m.bases && forall b :: b in m.bases ==> b <= p.value
  {
    hide OnBase, Adds, Predict;
    var base, terms := PredictIs(m, fleet);
    forall i | 0 <= i < |terms| ensures terms[i] == 0.0 {
      AddsNothingOnBase(m.factors[i], fleet, terms[i]);
    }
    SumOfZeros(terms);
  }
}
