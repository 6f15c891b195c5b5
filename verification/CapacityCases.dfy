/** Measured series on which the search for breaking points and the install plan do not
    keep what they promise, in the ranges `install_plan` searches
    (admin_console/harness_limits.py). */
module CapacityCases {
  import opened Options
  import opened LeastSquares
  import opened Prediction
  import opened Capacity

  /** Two runs one cluster apart, on a line of this slope from the base point `at`. */
  function Straight(slope: real, at: real): Series {
    Series([Point(at, 0.0, false, false, ""), Point(at + 1.0, slope, false, false, "")], Some(at))
  }

  /** A metric that grows with the clusters alone, as the steepest of some straight lines,
      against one critical line. */
  function Check(base: real, series: seq<Series>, limit: real): CheckSpec {
    CheckSpec(Measured([base], [Factor(CLUSTERS, true, false, None, series)]), [Line(limit, true)])
  }

  function FleetOf(clusters: real): Fleet {
    map[CLUSTERS := clusters, CHURN := 0.0, FAILING_PODS := 0.0]
  }

  lemma StraightFit(slope: real, at: real)
    ensures FitLine(Straight(slope, at).points).Some? && FitLine(Straight(slope, at).points).value.slope == slope
  {
    var points := Straight(slope, at).points;
    assert points[1..] == [points[1]] && points[1..][1..] == [];
    assert Used(points[1..]) == [points[1]] + Used([]);
    assert Used(points) == [points[0]] + [points[1]];
    assert At(at) == LevelOf(points[0]) && At(at + 1.0) == LevelOf(points[1]);
    assert Used(points) == points;
    assert Levels(points) == {At(at), At(at + 1.0)} && Places(points) == {at, at + 1.0};
    assert |{At(at), At(at + 1.0)}| == 2 && |{at, at + 1.0}| == 2;
    FitExists(points);
    TwoPoints(points);
    hide FitLine;
    var f := FitLine(points).value;
    OneApart(f.intercept, f.slope, at, slope);
  }

  lemma OneApart(intercept: real, slope: real, at: real, rise: real)
    requires 0.0 == intercept + slope * at && rise == intercept + slope * (at + 1.0)
    ensures slope == rise
  {
  }

  lemma StraightDelta(f: Factor, slope: real, at: real, fleet: Fleet, d: real)
    requires f.known && f.name == CLUSTERS && CLUSTERS in fleet && d == fleet[CLUSTERS] - at
    ensures var c := Contribute(f, Straight(slope, at), fleet);
            c.fit.Some? && c.delta == Times(slope, d)
  {
    StraightFit(slope, at);
    hide FitLine;
  }

  /** What the prediction adds for one line, and for the better of two. */
  lemma OneDelta(f: Factor, slope: real, at: real, fleet: Fleet, d: real)
    requires f.known && f.name == CLUSTERS && !f.load && f.series == [Straight(slope, at)]
    requires CLUSTERS in fleet && d == fleet[CLUSTERS] - at
    ensures FactorDelta(f, fleet) == Times(slope, d)
  {
    hide Contribute, Times;
    StraightDelta(f, slope, at, fleet, d);
    assert f.series[1..] == [] && !f.series[0].points[0].isBase;
    assert Candidates(f.series) == f.series;
  }

  lemma TwoDeltas(f: Factor, fall: real, rise: real, at: real, fleet: Fleet, d: real)
    requires f.known && f.name == CLUSTERS && !f.load && f.series == [Straight(fall, at), Straight(rise, at)]
    requires CLUSTERS in fleet && d == fleet[CLUSTERS] - at && rise >= 0.0 >= fall
    ensures FactorDelta(f, fleet) == if d >= 0.0 then Times(rise, d) else Times(fall, d)
  {
    hide Contribute, Best, Candidates, Times;
    StraightDelta(f, fall, at, fleet, d);
    StraightDelta(f, rise, at, fleet, d);
    Signs(rise, fall, d);
    BothCandidates(f.series);
    BestOfTwo(f, f.series, fleet);
  }

  lemma BestOfTwo(f: Factor, series: seq<Series>, fleet: Fleet)
    requires |series| == 2
    ensures var a, b := Contribute(f, series[0], fleet), Contribute(f, series[1], fleet);
            Best(f, series, fleet) == if Better(b, a) then b else a
  {
    hide Contribute;
    assert series[..1] == [series[0]];
    assert Best(f, series[..1], fleet) == Contribute(f, series[0], fleet);
  }

  lemma BothCandidates(series: seq<Series>)
    requires |series| == 2 && forall i :: 0 <= i < 2 ==> series[i].points != [] && !series[i].points[0].isBase
    ensures Candidates(series) == series
  {
    assert series[1..] == [series[1]] && series[1..][1..] == [];
    assert Candidates(series[1..]) == [series[1]] + Candidates([]);
    assert series == [series[0]] + [series[1]];
  }

  /** A check of one factor against one line. */
  lemma OneFactorFails(base: real, series: seq<Series>, limit: real, fleet: Fleet, x: real, delta: real)
    requires ValidSweep(Clusters(fleet))
    requires FactorDelta(Check(base, series, limit).measured.factors[0], FleetAt(Clusters(fleet), x)) == delta
    ensures FailsAt(Check(base, series, limit), Clusters(fleet), x) <==> base + delta > limit + EPSILON
  {
    hide FactorDelta, FleetAt;
    var c, now := Check(base, series, limit), FleetAt(Clusters(fleet), x);
    assert c.measured.factors[1..] == [];
    assert Growth(c.measured.factors, now) == delta;
    OneLimit(c, Clusters(fleet), x, limit, base + delta);
  }

  lemma OneLine(base: real, slope: real, at: real, limit: real, fleet: Fleet, x: real)
    requires ValidSweep(Clusters(fleet))
    ensures FailsAt(Check(base, [Straight(slope, at)], limit), Clusters(fleet), x) <==>
              base + slope * (x - at) > limit + EPSILON
  {
    var series := [Straight(slope, at)];
    var f := Check(base, series, limit).measured.factors[0];
    assert FleetAt(Clusters(fleet), x)[CLUSTERS] == x;
    hide FactorDelta, FleetAt, FailsAt, Straight;
    OneDelta(f, slope, at, FleetAt(Clusters(fleet), x), x - at);
    OneFactorFails(base, series, limit, fleet, x, Times(slope, x - at));
  }

  lemma TwoLines(base: real, rise: real, fall: real, at: real, limit: real, fleet: Fleet, x: real, d: real)
    requires ValidSweep(Clusters(fleet)) && rise >= 0.0 >= fall && d == x - at
    ensures FailsAt(Check(base, [Straight(fall, at), Straight(rise, at)], limit), Clusters(fleet), x) <==>
              base + (if d >= 0.0 then rise * d else fall * d) > limit + EPSILON
  {
    var series := [Straight(fall, at), Straight(rise, at)];
    var f := Check(base, series, limit).measured.factors[0];
    assert FleetAt(Clusters(fleet), x)[CLUSTERS] == x;
    hide FactorDelta, FleetAt, FailsAt, Straight;
    TwoDeltas(f, fall, rise, at, FleetAt(Clusters(fleet), x), d);
    OneFactorFails(base, series, limit, fleet, x, if d >= 0.0 then Times(rise, d) else Times(fall, d));
  }

  lemma Signs(rise: real, fall: real, d: real)
    requires rise >= 0.0 >= fall
    ensures d >= 0.0 ==> Times(rise, d) >= Times(fall, d)
    ensures d <= 0.0 ==> Times(rise, d) <= Times(fall, d)
  {
  }

  lemma OneLimit(c: CheckSpec, w: Sweep, x: real, limit: real, value: real)
    requires ValidSweep(w) && c.lines == [Line(limit, true)] && Predict(c.measured, FleetAt(w, x)) == Some(value)
    ensures FailsAt(c, w, x) <==> value > limit + EPSILON
  {
    hide Predict, FleetAt;
    if Crossed(value, c.lines[0]) {
      assert Evaluate(value, c.lines) == Fail;
    } else {
      assert Evaluate(value, c.lines) == Pass;
    }
  }

  lemma NotPast(base: real, series: seq<Series>, limit: real)
    requires base <= limit
    ensures !PastAtBase(Check(base, series, limit))
  {
    assert !Crossed(base, Line(limit, true));
  }

  /** A metric that falls by one a cluster from the base point `at`, against a limit of 5. */
  function Falling(at: real): CheckSpec {
    Check(0.0, [Straight(-1.0, at)], 5.0)
  }

  lemma FallingFails(at: real, fleet: Fleet, x: real)
    requires ValidSweep(Clusters(fleet))
    ensures !PastAtBase(Falling(at)) && (FailsAt(Falling(at), Clusters(fleet), x) <==> at - x > 5.0 + EPSILON)
  {
    OneLine(0.0, -1.0, at, 5.0, fleet, x);
    NotPast(0.0, [Straight(-1.0, at)], 5.0);
    hide FailsAt, PastAtBase, Check;
  }

  /** A metric of one a cluster, with a base point of `at` clusters. */
  function Rising(at: real, limit: real): CheckSpec {
    Check(at, [Straight(1.0, at)], limit)
  }

  lemma RisingFails(at: real, limit: real, fleet: Fleet, x: real)
    requires ValidSweep(Clusters(fleet)) && limit >= at
    ensures !PastAtBase(Rising(at, limit)) && (FailsAt(Rising(at, limit), Clusters(fleet), x) <==> x > limit + EPSILON)
  {
    OneLine(at, 1.0, at, limit, fleet, x);
    NotPast(at, [Straight(1.0, at)], limit);
    hide FailsAt, PastAtBase, Check;
  }

  /** Two operations, one whose metric falls by one a cluster towards 600 clusters and one
      whose rises by one from there, against a limit of 5. */
  function Valley(): CheckSpec {
    Check(0.0, [Straight(-1.0, 600.0), Straight(1.0, 600.0)], 5.0)
  }

  lemma ValleyFails(fleet: Fleet, x: real)
    requires ValidSweep(Clusters(fleet))
    ensures !PastAtBase(Valley())
    ensures FailsAt(Valley(), Clusters(fleet), x) <==> x - 600.0 > 5.0 + EPSILON || 600.0 - x > 5.0 + EPSILON
  {
    TwoLines(0.0, 1.0, -1.0, 600.0, 5.0, fleet, x, x - 600.0);
    NotPast(0.0, [Straight(-1.0, 600.0), Straight(1.0, 600.0)], 5.0);
    hide FailsAt, PastAtBase, Check;
  }

  /** A fleet of one cluster, against data whose base has twenty: the falling metric fails
      where the search starts, and the answer is that no limit is reached. */
  lemma FallingIsMissed()
    ensures var c, fleet := Falling(20.0), FleetOf(1.0);
            var start, ceiling := PlanStart(fleet, 20.0), PlanCeiling(fleet);
            && !PastAtBase(c) && FailsAt(c, Clusters(fleet), start)
            && CapacityOf(c, Clusters(fleet), start, ceiling) == NotReached
            && !RightAt(c, Clusters(fleet), start, ceiling, start)
  {
    FallingFails(20.0, FleetOf(1.0), 1.0);
    FallingFails(20.0, FleetOf(1.0), 1000.0);
    hide FailsAt, PastAtBase, Falling;
  }

  /** The check of the valley fails at one cluster and at a thousand, passes at six
      hundred, and is given a breaking point just above one. */
  lemma DipIsReal()
    ensures var c, fleet := Valley(), FleetOf(1.0);
            var start, ceiling := PlanStart(fleet, 600.0), PlanCeiling(fleet);
            && !PastAtBase(c) && !FailsAt(c, Clusters(fleet), 600.0)
            && CapacityOf(c, Clusters(fleet), start, ceiling) == Breaks(start + Width(start, ceiling))
            && start + Width(start, ceiling) < 600.0
  {
    hide FailsAt, PastAtBase, Valley, CapacityOf;
    var fleet := FleetOf(1.0);
    ValleyFails(fleet, 1.0);
    ValleyFails(fleet, 500.5);
    ValleyFails(fleet, 600.0);
    ValleyFails(fleet, 1000.0);
    DipIsMissed(Valley(), Clusters(fleet), 1.0, 1000.0, 600.0);
  }

  // ---- A plan on the limit -----------------------------------------------------------------

  /** Halving while every middle fails lowers the upper end alone. */
  lemma {:induction false} BisectDown(c: CheckSpec, w: Sweep, low: real, high: real, n: nat, j: nat)
    requires ValidSweep(w) && low <= high && j <= n && Pow2(j) > 0.0
    requires forall x :: low + (high - low) / Pow2(j) <= x <= high ==> FailsAt(c, w, x)
    ensures Bisect(c, w, low, high, n) == Bisect(c, w, low, low + (high - low) / Pow2(j), n - j)
    decreases j
  {
    if j > 0 {
      var middle := (low + high) / 2.0;
      Halved(low, high);
      Pow2Positive(j - 1);
      HalfWidth(high - low, j);
      ShrinksBy(high - low, j);
      assert FailsAt(c, w, middle);
      hide FailsAt;
      BisectDown(c, w, low, middle, n - 1, j - 1);
    }
  }

  lemma {:induction false} ShrinksBy(width: real, n: nat)
    requires width >= 0.0 && n > 0
    ensures Pow2(n) > 0.0 && 0.0 <= width / Pow2(n) <= width / 2.0
  {
    Pow2Positive(n);
    if n > 1 {
      ShrinksBy(width, n - 1);
      HalfWidth(width, n);
      Quotients(width, Pow2(n - 1));
      assert width / Pow2(n) == width / Pow2(n - 1) / 2.0 by { Halves(width, Pow2(n - 1)); }
    }
  }

  lemma Halves(width: real, p: real)
    requires p > 0.0
    ensures width / (2.0 * p) == width / p / 2.0
  {
  }

  /** Halving while every middle passes leaves the upper end where it is. */
  lemma {:induction false} BisectStays(c: CheckSpec, w: Sweep, low: real, high: real, n: nat)
    requires ValidSweep(w) && low <= high && Pow2(n) > 0.0
    requires forall x :: low <= x <= high - (high - low) / Pow2(n) ==> !FailsAt(c, w, x)
    ensures Bisect(c, w, low, high, n) == high
    decreases n
  {
    if n > 0 {
      var middle := (low + high) / 2.0;
      Halved(low, high);
      Pow2Positive(n - 1);
      HalfWidth(high - low, n);
      ShrinksBy(high - low, n);
      assert !FailsAt(c, w, middle);
      hide FailsAt;
      BisectStays(c, w, middle, high, n - 1);
    }
  }

  /** Against a limit just under 2047, with a base of 48 clusters, the first breaking point
      of a fleet of 4094 is exactly 2047, and the plan is two installs that both fail. */
  lemma PlanOnTheLimit()
    ensures var c, fleet := Rising(48.0, 2046.999), FleetOf(4094.0);
            var plan := PlanFor([c], fleet, 48.0);
            && !PastAtBase(c) && !FailsAt(c, Clusters(fleet), PlanStart(fleet, 48.0))
            && plan.first == Some(2047.0) && plan.installs == 2 && plan.share[CLUSTERS] == 2047.0
            && CheckAt(c, plan.share) == Fail
  {
    hide FailsAt, PastAtBase, Rising, CheckAt, PlanFor, CapacityOf;
    var c, fleet := Rising(48.0, 2046.999), FleetOf(4094.0);
    RisingFails(48.0, 2046.999, fleet, 48.0);
    LimitBreaks();
    OnlyCheck(c, fleet, 48.0, 2047.0);
    WholeBreakingPoint([c], fleet, 48.0, 2047, 2);
  }

  lemma LimitBreaks()
    ensures CapacityOf(Rising(48.0, 2046.999), Clusters(FleetOf(4094.0)), 48.0, 4094000.0) == Breaks(2047.0)
  {
    hide FailsAt, PastAtBase, Rising, Bisect, Pow2;
    var c, w := Rising(48.0, 2046.999), Clusters(FleetOf(4094.0));
    forall x ensures !PastAtBase(c) && (FailsAt(c, w, x) <==> x > 2046.999 + EPSILON) {
      RisingFails(48.0, 2046.999, FleetOf(4094.0), x);
    }
    Powers();
    DownTo(c, w, 48.0, 4094000.0, 30, 11, 2047.0);
    StaysAt(c, w, 48.0, 2047.0, 19, 2046.999);
  }

  /** The two halves of the search, with where they arrive given. */
  lemma DownTo(c: CheckSpec, w: Sweep, low: real, high: real, n: nat, j: nat, mid: real)
    requires ValidSweep(w) && low <= high && j <= n && Pow2(j) > 0.0 && mid == low + (high - low) / Pow2(j)
    requires forall x :: mid <= x <= high ==> FailsAt(c, w, x)
    ensures Bisect(c, w, low, high, n) == Bisect(c, w, low, mid, n - j)
  {
    hide FailsAt, Bisect, Pow2;
    BisectDown(c, w, low, high, n, j);
  }

  lemma StaysAt(c: CheckSpec, w: Sweep, low: real, high: real, n: nat, below: real)
    requires ValidSweep(w) && low <= high && Pow2(n) > 0.0 && high - (high - low) / Pow2(n) <= below
    requires forall x :: low <= x <= below ==> !FailsAt(c, w, x)
    ensures Bisect(c, w, low, high, n) == high
  {
    hide FailsAt, Bisect, Pow2;
    BisectStays(c, w, low, high, n);
  }

  lemma Powers()
    ensures Pow2(11) > 0.0 && 48.0 + (4094000.0 - 48.0) / Pow2(11) == 2047.0
    ensures Pow2(19) > 0.0 && 2047.0 - (2047.0 - 48.0) / Pow2(19) <= 2046.999
  {
    assert Pow2(6) == 64.0;
    assert Pow2(11) == 2048.0;
    assert Pow2(12) == 4096.0;
    assert Pow2(18) == 262144.0;
    assert Pow2(19) == 524288.0;
  }

  lemma OnlyCheck(c: CheckSpec, fleet: Fleet, baseClusters: real, at: real)
    requires ValidSweep(Clusters(fleet))
    requires CapacityOf(c, Clusters(fleet), PlanStart(fleet, baseClusters), PlanCeiling(fleet)) == Breaks(at)
    ensures PlanFor([c], fleet, baseClusters).first == Some(at)
  {
    ShareOfPlan([c], fleet, baseClusters);
    hide CapacityOf, PlanFor, PlanStart, PlanCeiling;
    var results := Results([c], Clusters(fleet), PlanStart(fleet, baseClusters), PlanCeiling(fleet));
    assert results == [Breaks(at)];
    assert results[1..] == [];
  }

  /** A limit below one cluster: with a base of no clusters and a limit of 0.3, a fleet of 5
      is planned as five installs of one cluster, which all fail, although the check passes
      where the search starts. */
  lemma LimitBelowOne()
    ensures var c, fleet := Rising(0.0, 0.3), FleetOf(5.0);
            var plan := PlanFor([c], fleet, 0.0);
            && !PastAtBase(c) && !FailsAt(c, Clusters(fleet), PlanStart(fleet, 0.0))
            && plan.first.Some? && plan.first.value < 1.0 && plan.installs == 5 && plan.share[CLUSTERS] == 1.0
            && CheckAt(c, plan.share) == Fail
  {
    hide FailsAt, PastAtBase, Rising, CheckAt, PlanFor, CapacityOf, Results, FirstReached, Installs, PerInstall;
    var c, fleet := Rising(0.0, 0.3), FleetOf(5.0);
    var at := SmallBreaks();
    RisingFails(0.0, 0.3, fleet, 0.0);
    RisingFails(0.0, 0.3, fleet, 1.0);
    OnlyCheck(c, fleet, 0.0, at);
    ShareOfPlan([c], fleet, 0.0);
    FiveInstalls(at);
    FailsAsPlanned(c, fleet, 1.0);
  }

  lemma SmallBreaks() returns (at: real)
    ensures CapacityOf(Rising(0.0, 0.3), Clusters(FleetOf(5.0)), 0.0, 5000.0) == Breaks(at) && 0.3 < at < 0.4
  {
    var c, w := Rising(0.0, 0.3), Clusters(FleetOf(5.0));
    forall x ensures !PastAtBase(c) && (FailsAt(c, w, x) <==> x > 0.3 + EPSILON) { RisingFails(0.0, 0.3, FleetOf(5.0), x); }
    hide FailsAt, PastAtBase, Rising;
    CapacityBrackets(c, w, 0.0, 5000.0, 0.0);
    hide Bisect;
    at := CapacityOf(c, w, 0.0, 5000.0).at;
  }

  lemma FiveInstalls(at: real)
    requires 0.3 < at < 0.4
    ensures Installs(5.0, at) == 5
  {
    assert PerInstall(at) == 1;
    assert Ceil(5.0 / 1.0) == 5;
  }

  /** A share can also fall below where the search started, where nothing was looked at.
      With a rising metric that breaks between 60 and 61 clusters and a falling one that
      passes from 48 clusters up, a fleet of 70 is planned as two installs of 35, and those
      fail the falling one, which the whole fleet passes. */
  lemma ShareBelowTheStart()
    ensures var fleet := FleetOf(70.0);
            var plan := PlanFor([Rising(48.0, 60.5), Falling(48.0)], fleet, 48.0);
            && !PastAtBase(Falling(48.0)) && !FailsAt(Falling(48.0), Clusters(fleet), PlanStart(fleet, 48.0))
            && !FailsAt(Falling(48.0), Clusters(fleet), 70.0)
            && plan.installs == 2 && plan.share[CLUSTERS] == 35.0 < PlanStart(fleet, 48.0)
            && CheckAt(Falling(48.0), plan.share) == Fail
  {
    hide FailsAt, PastAtBase, Rising, Falling, CapacityOf, PlanFor, Results, FirstReached, Installs, PerInstall, CheckAt;
    var fleet := FleetOf(70.0);
    var at := RisingBreaks();
    FallingFails(48.0, fleet, 48.0);
    FallingFails(48.0, fleet, 70.0);
    FallingFails(48.0, fleet, 35.0);
    FallingFails(48.0, fleet, 70000.0);
    NotReachedAt(Falling(48.0), Clusters(fleet), 48.0, 70000.0);
    TwoChecks(Rising(48.0, 60.5), Falling(48.0), fleet, 48.0, at);
    ShareOfPlan([Rising(48.0, 60.5), Falling(48.0)], fleet, 48.0);
    TwoInstalls(at);
    FailsAsPlanned(Falling(48.0), fleet, 35.0);
  }

  lemma NotReachedAt(c: CheckSpec, w: Sweep, start: real, ceiling: real)
    requires ValidSweep(w) && !PastAtBase(c) && !FailsAt(c, w, ceiling)
    ensures CapacityOf(c, w, start, ceiling) == NotReached
  {
  }

  lemma FailsAsPlanned(c: CheckSpec, fleet: Fleet, x: real)
    requires ValidSweep(Clusters(fleet)) && FailsAt(c, Clusters(fleet), x)
    ensures CheckAt(c, FleetAt(Clusters(fleet), x)) == Fail
  {
  }

  lemma TwoInstalls(at: real)
    requires 60.5 < at < 61.0
    ensures Installs(70.0, at) == 2
  {
    assert PerInstall(at) == 60;
    assert Ceil(70.0 / 60.0) == 2;
  }

  lemma RisingBreaks() returns (at: real)
    ensures CapacityOf(Rising(48.0, 60.5), Clusters(FleetOf(70.0)), 48.0, 70000.0) == Breaks(at) && 60.5 < at < 61.0
  {
    var c, w := Rising(48.0, 60.5), Clusters(FleetOf(70.0));
    forall x ensures !PastAtBase(c) && (FailsAt(c, w, x) <==> x > 60.5 + EPSILON) { RisingFails(48.0, 60.5, FleetOf(70.0), x); }
    hide FailsAt, PastAtBase, Rising;
    CapacityBrackets(c, w, 48.0, 70000.0, 48.0);
    hide Bisect;
    at := CapacityOf(c, w, 48.0, 70000.0).at;
  }

  lemma TwoChecks(c: CheckSpec, d: CheckSpec, fleet: Fleet, baseClusters: real, at: real)
    requires ValidSweep(Clusters(fleet))
    requires CapacityOf(c, Clusters(fleet), PlanStart(fleet, baseClusters), PlanCeiling(fleet)) == Breaks(at)
    requires CapacityOf(d, Clusters(fleet), PlanStart(fleet, baseClusters), PlanCeiling(fleet)) == NotReached
    ensures PlanFor([c, d], fleet, baseClusters).first == Some(at)
  {
    ShareOfPlan([c, d], fleet, baseClusters);
    hide CapacityOf, PlanFor, PlanStart, PlanCeiling;
    var results := Results([c, d], Clusters(fleet), PlanStart(fleet, baseClusters), PlanCeiling(fleet));
    assert results == [Breaks(at), NotReached];
    assert results[1..] == [NotReached] && results[1..][1..] == [];
    assert FirstReached(results[1..]) == None;
  }
}
