/** Where a check first fails as an input grows, and how a fleet is split into
    installs (admin_console/harness_limits.py, `capacities`, `install_plan`,
    `split_fleet`). */
module Capacity {
  import opened Options
  import opened LeastSquares
  import opened Prediction

  const CAPACITY_STEPS := 30
  const SPLIT_GROWTH := 1.5

  /** The check's answer: it fails at the base point, it does not fail at the
      ceiling, or a breaking point. */
  datatype Capacity = AtBase | NotReached | Breaks(at: real)

  function Pow2(n: nat): real {
    if n == 0 then 1.0 else 2.0 * Pow2(n - 1)
  }

  /** The upper end of `n` halvings of [low, high]. */
  function Bisect(c: CheckSpec, w: Sweep, low: real, high: real, n: nat): real
    requires ValidSweep(w)
    decreases n
  {
    if n == 0 then high
    else
      var middle := (low + high) / 2.0;
      if FailsAt(c, w, middle) then Bisect(c, w, low, middle, n - 1) else Bisect(c, w, middle, high, n - 1)
  }

  function CapacityOf(c: CheckSpec, w: Sweep, start: real, ceiling: real): Capacity
    requires ValidSweep(w)
  {
    if PastAtBase(c) then AtBase
    else if !FailsAt(c, w, ceiling) then NotReached
    else Breaks(Bisect(c, w, start, ceiling, CAPACITY_STEPS))
  }

  /** What `capacities` returns, before it is sorted. */
  function Results(checks: seq<CheckSpec>, w: Sweep, start: real, ceiling: real): seq<Capacity>
    requires ValidSweep(w)
  {
    seq(|checks|, i requires 0 <= i < |checks| => CapacityOf(checks[i], w, start, ceiling))
  }

  /** The halving loop of `capacities` for one check. */
  method Search(c: CheckSpec, w: Sweep, start: real, ceiling: real) returns (high: real)
    requires ValidSweep(w)
    ensures high == Bisect(c, w, start, ceiling, CAPACITY_STEPS)
  {
    hide FailsAt;
    var low := start;
    high := ceiling;
    for step := 0 to CAPACITY_STEPS
      invariant Bisect(c, w, low, high, CAPACITY_STEPS - step) == Bisect(c, w, start, ceiling, CAPACITY_STEPS)
    {
      var middle := (low + high) / 2.0;
      if FailsAt(c, w, middle) { high := middle; } else { low := middle; }
    }
  }

  /** `capacities`, for every check in turn. */
  method Capacities(checks: seq<CheckSpec>, w: Sweep, start: real, ceiling: real) returns (results: seq<Capacity>)
    requires ValidSweep(w)
    ensures results == Results(checks, w, start, ceiling)
  {
    results := [];
    for i := 0 to |checks|
      invariant |results| == i
      invariant forall k :: 0 <= k < i ==> results[k] == CapacityOf(checks[k], w, start, ceiling)
    {
      var c := checks[i];
      if PastAtBase(c) {
        results := results + [AtBase];
      } else if !FailsAt(c, w, ceiling) {
        results := results + [NotReached];
      } else {
        var high := Search(c, w, start, ceiling);
        results := results + [Breaks(high)];
      }
    }
  }

  lemma Halved(low: real, high: real)
    requires low <= high
    ensures low <= (low + high) / 2.0 <= high
    ensures (low + high) / 2.0 - low == (high - low) / 2.0 && high - (low + high) / 2.0 == (high - low) / 2.0
  {
  }

  lemma {:induction false} Pow2Positive(n: nat)
    ensures Pow2(n) > 0.0
  {
    if n > 0 { Pow2Positive(n - 1); }
  }

  lemma HalfWidth(width: real, n: nat)
    requires n > 0 && Pow2(n) > 0.0 && Pow2(n - 1) > 0.0
    ensures width / 2.0 / Pow2(n - 1) == width / Pow2(n)
  {
    Quotients(width, Pow2(n - 1));
  }

  lemma Quotients(width: real, p: real)
    requires p > 0.0
    ensures width / 2.0 / p == width / (2.0 * p)
  {
  }

  /** Starting from an interval that fails at its upper end and not at its lower,
      the result fails and the point one final interval below it does not. */
  lemma {:induction false} BisectBrackets(c: CheckSpec, w: Sweep, low: real, high: real, n: nat)
    requires ValidSweep(w) && low <= high && FailsAt(c, w, high) && !FailsAt(c, w, low)
    ensures Pow2(n) > 0.0
    ensures var v := Bisect(c, w, low, high, n);
            && FailsAt(c, w, v) && !FailsAt(c, w, v - (high - low) / Pow2(n))
            && low <= v - (high - low) / Pow2(n) <= v <= high
    decreases n
  {
    hide FailsAt;
    Pow2Positive(n);
    if n > 0 {
      var middle := (low + high) / 2.0;
      Halved(low, high);
      Pow2Positive(n - 1);
      HalfWidth(high - low, n);
      if FailsAt(c, w, middle) {
        BisectBrackets(c, w, low, middle, n - 1);
      } else {
        BisectBrackets(c, w, middle, high, n - 1);
      }
    }
  }

  lemma ThirtyHalvings()
    ensures Pow2(CAPACITY_STEPS) == 1073741824.0
  {
    assert Pow2(6) == 64.0;
    assert Pow2(12) == 4096.0;
    assert Pow2(18) == 262144.0;
    assert Pow2(24) == 16777216.0;
  }

  /** The resolution of the search: a 2^30th of the range. */
  function Width(start: real, ceiling: real): real {
    (ceiling - start) / 1073741824.0
  }

  /** For a check that passes at the start: no answer means it fails nowhere in the
      range; a breaking point fails, everything above it fails, everything up to a
      2^30th of the range below it passes. */
  lemma CapacityBrackets(c: CheckSpec, w: Sweep, start: real, ceiling: real, x: real)
    requires ValidSweep(w) && start <= x <= ceiling && !FailsAt(c, w, start) && !PastAtBase(c)
    ensures var r := CapacityOf(c, w, start, ceiling);
            var width := Width(start, ceiling);
            && !r.AtBase?
            && (r.NotReached? ==> !FailsAt(c, w, x))
            && (r.Breaks? ==>
                  && start <= r.at - width && r.at <= ceiling
                  && FailsAt(c, w, r.at) && !FailsAt(c, w, r.at - width)
                  && (r.at <= x ==> FailsAt(c, w, x))
                  && (x <= r.at - width ==> !FailsAt(c, w, x)))
  {
    hide FailsAt, PastAtBase;
    if !FailsAt(c, w, ceiling) {
      PassingIsAnInterval(c, w, start, x, ceiling);
    } else {
      ThirtyHalvings();
      BisectBrackets(c, w, start, ceiling, CAPACITY_STEPS);
      var v := Bisect(c, w, start, ceiling, CAPACITY_STEPS);
      var low := v - (ceiling - start) / 1073741824.0;
      if v <= x && !FailsAt(c, w, x) { PassingIsAnInterval(c, w, low, v, x); }
      if x <= low { PassingIsAnInterval(c, w, start, x, low); }
    }
  }

  /** Whether the answer is right about the input `x`: past at the base, failing nowhere,
      or failing from the breaking point up and passing from a resolution step below it
      down. */
  ghost predicate RightAt(c: CheckSpec, w: Sweep, start: real, ceiling: real, x: real)
    requires ValidSweep(w)
  {
    match CapacityOf(c, w, start, ceiling)
    case AtBase => PastAtBase(c)
    case NotReached => !FailsAt(c, w, x)
    case Breaks(at) =>
      && FailsAt(c, w, at)
      && (at <= x ==> FailsAt(c, w, x))
      && (x <= at - Width(start, ceiling) ==> !FailsAt(c, w, x))
  }

  /** The search never gets closer to its start than one resolution step. */
  lemma {:induction false} BisectAbove(c: CheckSpec, w: Sweep, low: real, high: real, n: nat)
    requires ValidSweep(w) && low <= high
    ensures Pow2(n) > 0.0 && low + (high - low) / Pow2(n) <= Bisect(c, w, low, high, n)
    decreases n
  {
    hide FailsAt;
    Pow2Positive(n);
    if n > 0 {
      var middle := (low + high) / 2.0;
      Halved(low, high);
      Pow2Positive(n - 1);
      HalfWidth(high - low, n);
      BisectAbove(c, w, low, middle, n - 1);
      BisectAbove(c, w, middle, high, n - 1);
    }
  }

  /** The answer is right about the whole range exactly when the check is past at the base
      or does not fail at the start. */
  lemma CapacityIsCorrectIff(c: CheckSpec, w: Sweep, start: real, ceiling: real)
    requires ValidSweep(w) && start <= ceiling
    ensures (forall x :: start <= x <= ceiling ==> RightAt(c, w, start, ceiling, x)) <==>
              PastAtBase(c) || !FailsAt(c, w, start)
  {
    hide FailsAt, PastAtBase;
    if !PastAtBase(c) {
      if FailsAt(c, w, start) {
        ThirtyHalvings();
        BisectAbove(c, w, start, ceiling, CAPACITY_STEPS);
        assert !RightAt(c, w, start, ceiling, start);
      } else {
        forall x | start <= x <= ceiling ensures RightAt(c, w, start, ceiling, x) {
          CapacityBrackets(c, w, start, ceiling, x);
        }
      }
    }
  }

  /** Halving an interval that fails throughout only ever lowers its upper end. */
  lemma {:induction false} BisectAllFailing(c: CheckSpec, w: Sweep, low: real, high: real, n: nat)
    requires ValidSweep(w) && low <= high && forall x :: low <= x <= high ==> FailsAt(c, w, x)
    ensures Pow2(n) > 0.0
    ensures Bisect(c, w, low, high, n) == low + (high - low) / Pow2(n)
    decreases n
  {
    Pow2Positive(n);
    if n > 0 {
      var middle := (low + high) / 2.0;
      Halved(low, high);
      Pow2Positive(n - 1);
      HalfWidth(high - low, n);
      assert FailsAt(c, w, middle);
      hide FailsAt;
      BisectAllFailing(c, w, low, middle, n - 1);
    }
  }

  /** What a failing start can lead to.  A check that fails at the start and in the
      middle, and dips below its threshold further up, is given a breaking point just
      above the start although it passes at the dip. */
  lemma DipIsMissed(c: CheckSpec, w: Sweep, start: real, ceiling: real, dip: real)
    requires ValidSweep(w) && (start + ceiling) / 2.0 < dip <= ceiling && start < ceiling && !PastAtBase(c)
    requires FailsAt(c, w, start) && FailsAt(c, w, (start + ceiling) / 2.0) && FailsAt(c, w, ceiling) && !FailsAt(c, w, dip)
    ensures CapacityOf(c, w, start, ceiling) == Breaks(start + Width(start, ceiling))
    ensures start + Width(start, ceiling) < dip
  {
    hide FailsAt, PastAtBase;
    var middle := (start + ceiling) / 2.0;
    forall x | start <= x <= middle ensures FailsAt(c, w, x) {
      if !FailsAt(c, w, x) { PassingIsAnInterval(c, w, x, middle, dip); }
    }
    Halved(start, ceiling);
    BisectAllFailing(c, w, start, middle, CAPACITY_STEPS - 1);
    Pow2Positive(CAPACITY_STEPS);
    HalfWidth(ceiling - start, CAPACITY_STEPS);
    ThirtyHalvings();
  }

  // ---- Splitting a fleet into installs ---------------------------------------------------

  function Ceil(x: real): int {
    if x.Floor as real == x then x.Floor else x.Floor + 1
  }

  lemma CeilIs(x: real)
    ensures x <= Ceil(x) as real < x + 1.0
  {
  }

  lemma CeilLeast(x: real, n: int)
    requires x <= n as real
    ensures Ceil(x) <= n
  {
  }

  function NextCount(count: nat, clusters: real): int {
    var grown, most := Ceil(count as real * SPLIT_GROWTH), Ceil(clusters);
    if grown <= most then grown else most
  }

  /** The share of the fleet one of `count` installs holds. */
  function Share(fleet: Fleet, clusters: real, count: nat): Fleet
    requires ValidSweep(Clusters(fleet)) && count > 0
  {
    ScaledFleet(fleet, clusters / count as real)
  }

  function AtLeastOne(x: real): (r: real)
    ensures r >= 1.0 && r >= x && (r == 1.0 || r == x)
  {
    if x < 1.0 then 1.0 else x
  }

  lemma NextCountGrows(count: nat, clusters: real)
    requires 0 < count && (count as real) < clusters
    ensures count < NextCount(count, clusters) <= Ceil(clusters)
  {
    CeilIs(count as real * SPLIT_GROWTH);
    CeilIs(clusters);
  }

  /** The next count is half as many again, rounded up, but no more than the clusters rounded up. */
  lemma NextCountIs(count: nat, clusters: real)
    ensures var n := NextCount(count, clusters) as real;
            && (n >= count as real * 1.5 || n >= clusters)
            && n < count as real * 1.5 + 1.0 && n < clusters + 1.0
  {
    CeilIs(count as real * SPLIT_GROWTH);
    CeilIs(clusters);
  }

  /** `split_fleet`: `tooLarge` names the containers whose recommended size for a
      share is more than the largest there is.  `tried` is every count it considers. */
  method SplitFleet(fleet: Fleet, installs: int, tooLarge: Fleet -> seq<string>)
    returns (count: nat, over: seq<string>, tried: seq<nat>)
    requires ValidSweep(Clusters(fleet))
    ensures var clusters := AtLeastOne(fleet[CLUSTERS]);
            var first := if installs < 1 then 1 else installs;
            && count > 0 && over == tooLarge(Share(fleet, clusters, count))
            // It stops at a share that fits, or at one cluster per install or fewer.
            && (over == [] || clusters / count as real <= 1.0)
            && tried != [] && tried[0] == first && tried[|tried| - 1] == count
            // Every count before the last was too small, and each is larger than the one before.
            && (forall i :: 0 <= i < |tried| - 1 ==>
                  0 < tried[i] < tried[i + 1] && tooLarge(Share(fleet, clusters, tried[i])) != [] && tried[i + 1] == NextCount(tried[i], clusters))
            && count <= (if first > Ceil(clusters) then first else Ceil(clusters))
  {
    var clusters := AtLeastOne(fleet[CLUSTERS]);
    count := if installs < 1 then 1 else installs;
    tried := [count];
    CeilIs(clusters);
    ghost var first := count;
    while true
      invariant count > 0 && tried != [] && tried[0] == first && tried[|tried| - 1] == count
      invariant forall i :: 0 <= i < |tried| - 1 ==>
                  0 < tried[i] < tried[i + 1] && tooLarge(Share(fleet, clusters, tried[i])) != [] && tried[i + 1] == NextCount(tried[i], clusters)
      invariant count == first || count <= Ceil(clusters)
      decreases Ceil(clusters) - count
    {
      over := tooLarge(Share(fleet, clusters, count));
      if over == [] || count as real >= clusters {
        AtMostOneEach(clusters, count);
        return;
      }
      NextCountGrows(count, clusters);
      count := NextCount(count, clusters);
      tried := tried + [count];
    }
  }

  lemma AtMostOneEach(clusters: real, count: nat)
    requires count > 0
    ensures clusters <= count as real <==> clusters / count as real <= 1.0
  {
    Quotient(clusters, count as real);
  }

  /** The lowest breaking point, if any check has one. */
  function FirstReached(results: seq<Capacity>): Option<real> {
    if results == [] then None
    else
      var rest := FirstReached(results[1..]);
      if results[0].Breaks? && (rest.None? || results[0].at <= rest.value) then Some(results[0].at) else rest
  }

  /** How many clusters one install is given. */
  function PerInstall(capacity: real): int {
    if capacity.Floor < 1 then 1 else capacity.Floor
  }

  function Installs(clusters: real, capacity: real): int {
    var n := Ceil(clusters / PerInstall(capacity) as real);
    if n < 1 then 1 else n
  }

  lemma Fits(clusters: real, n: int, per: int)
    requires n >= 1 && per >= 1
    ensures clusters / n as real <= per as real <==> clusters / per as real <= n as real
  {
    Quotient(clusters, n as real);
    Quotient(clusters, per as real);
    ScaleBy(clusters / n as real, per as real, n as real);
    ScaleBy(clusters / per as real, n as real, per as real);
  }

  lemma ScaleBy(a: real, b: real, k: real)
    requires k > 0.0
    ensures a <= b <==> Times(a, k) <= Times(b, k)
  {
  }

  /** The plan's install count is the least whose share is within the floored capacity. */
  lemma PlanIsLeast(clusters: real, capacity: real, n: int)
    requires n >= 1
    ensures Installs(clusters, capacity) >= 1
    ensures clusters / Installs(clusters, capacity) as real <= PerInstall(capacity) as real
    ensures clusters / n as real <= PerInstall(capacity) as real ==> Installs(clusters, capacity) <= n
  {
    var per := PerInstall(capacity);
    CeilIs(clusters / per as real);
    Fits(clusters, Installs(clusters, capacity), per);
    Fits(clusters, n, per);
    if clusters / per as real <= n as real { CeilLeast(clusters / per as real, n); }
  }

  lemma {:induction false} FirstReachedIs(results: seq<Capacity>)
    ensures FirstReached(results).None? <==> forall i :: 0 <= i < |results| ==> !results[i].Breaks?
    ensures FirstReached(results).Some? ==>
      && (exists i :: 0 <= i < |results| && results[i] == Breaks(FirstReached(results).value))
      && (forall i :: 0 <= i < |results| && results[i].Breaks? ==> FirstReached(results).value <= results[i].at)
  {
    if results != [] {
      FirstReachedIs(results[1..]);
      forall i | 0 < i < |results| ensures results[i] == results[1..][i - 1] {}
      if FirstReached(results[1..]).Some? {
        var j :| 0 <= j < |results[1..]| && results[1..][j] == Breaks(FirstReached(results[1..]).value);
        assert results[j + 1] == results[1..][j];
      }
      assert forall i :: 0 <= i < |results[1..]| ==> results[1..][i] == results[i + 1];
    }
  }

  const CAPACITY_CEILING := 1000.0

  /** The range `install_plan` searches, for a fleet and the clusters of the data's base. */
  function PlanStart(fleet: Fleet, baseClusters: real): real
    requires CLUSTERS in fleet
  {
    if fleet[CLUSTERS] <= baseClusters then fleet[CLUSTERS] else baseClusters
  }

  function PlanCeiling(fleet: Fleet): real
    requires CLUSTERS in fleet
  {
    AtLeastOne(fleet[CLUSTERS]) * CAPACITY_CEILING
  }

  datatype InstallPlan = InstallPlan(first: Option<real>, installs: int, share: Fleet)

  /** `install_plan`, over the checks against the limits no setting raises. */
  function PlanFor(checks: seq<CheckSpec>, fleet: Fleet, baseClusters: real): InstallPlan
    requires ValidSweep(Clusters(fleet))
  {
    var results := Results(checks, Clusters(fleet), PlanStart(fleet, baseClusters), PlanCeiling(fleet));
    match FirstReached(results)
    case None => InstallPlan(None, 1, fleet)
    case Some(at) =>
      var installs := Installs(fleet[CLUSTERS], at);
      InstallPlan(Some(at), installs, ScaledFleet(fleet, fleet[CLUSTERS] / installs as real))
  }

  /** A share within the range and below the first breaking point by a resolution step, or
      any when there is none, fails no check that is not past at the base and does not fail
      at the start. */
  lemma BelowFirstPasses(checks: seq<CheckSpec>, w: Sweep, start: real, ceiling: real, c: CheckSpec, x: real)
    requires ValidSweep(w) && c in checks && !PastAtBase(c) && !FailsAt(c, w, start) && start <= x <= ceiling
    requires var first := FirstReached(Results(checks, w, start, ceiling));
             first.Some? ==> x <= first.value - Width(start, ceiling)
    ensures !FailsAt(c, w, x)
  {
    hide FailsAt, PastAtBase, CapacityOf, Width;
    var results := Results(checks, w, start, ceiling);
    var i :| 0 <= i < |checks| && checks[i] == c;
    assert results[i] == CapacityOf(c, w, start, ceiling);
    FirstReachedIs(results);
    CapacityBrackets(c, w, start, ceiling, x);
  }

  /** The promise of `install_plan`: no install of the plan fails a check that is not past
      at the base and does not fail where the search starts, when the install's share is
      not below that start and not within a resolution step of the first breaking point.
      It is not within that step when rounding down moved it further. */
  lemma PlanPasses(checks: seq<CheckSpec>, fleet: Fleet, baseClusters: real, c: CheckSpec)
    requires ValidSweep(Clusters(fleet)) && c in checks && !PastAtBase(c)
    requires !FailsAt(c, Clusters(fleet), PlanStart(fleet, baseClusters))
    requires PlanStart(fleet, baseClusters) <= PlanFor(checks, fleet, baseClusters).share[CLUSTERS]
    ensures var plan := PlanFor(checks, fleet, baseClusters);
            var width := Width(PlanStart(fleet, baseClusters), PlanCeiling(fleet));
            && (plan.first.None? || plan.share[CLUSTERS] <= plan.first.value - width ==> CheckAt(c, plan.share) != Fail)
            && (plan.first.Some? && 1.0 <= plan.first.value && plan.first.value.Floor as real <= plan.first.value - width ==>
                  plan.share[CLUSTERS] <= plan.first.value - width)
  {
    var w, start, ceiling := Clusters(fleet), PlanStart(fleet, baseClusters), PlanCeiling(fleet);
    var plan := PlanFor(checks, fleet, baseClusters);
    var x := plan.share[CLUSTERS];
    ShareOfPlan(checks, fleet, baseClusters);
    hide CheckAt, PastAtBase, PlanFor, Width, Installs, PerInstall;
    if plan.first.None? || x <= plan.first.value - Width(start, ceiling) {
      BelowFirstPasses(checks, w, start, ceiling, c, x);
    }
  }

  /** What the plan is made of: the first breaking point, the least installs whose share is
      within it rounded down, and that share. */
  lemma ShareOfPlan(checks: seq<CheckSpec>, fleet: Fleet, baseClusters: real)
    requires ValidSweep(Clusters(fleet))
    ensures var plan := PlanFor(checks, fleet, baseClusters);
            var x := plan.share[CLUSTERS];
            && plan.first == FirstReached(Results(checks, Clusters(fleet), PlanStart(fleet, baseClusters), PlanCeiling(fleet)))
            && plan.installs >= 1 && x == fleet[CLUSTERS] / plan.installs as real
            && x <= PlanCeiling(fleet) && plan.share == FleetAt(Clusters(fleet), x)
            && (plan.first.Some? ==>
                  && plan.installs == Installs(fleet[CLUSTERS], plan.first.value)
                  && x <= PerInstall(plan.first.value) as real
                  && (1.0 <= plan.first.value ==> x <= plan.first.value.Floor as real))
  {
    var plan, f := PlanFor(checks, fleet, baseClusters), fleet[CLUSTERS];
    ScalesToItself(fleet);
    hide Results, FirstReached;
    if plan.first.Some? { PlanIsLeast(f, plan.first.value, 1); }
    hide Installs;
    NoLarger(f, plan.installs);
  }

  lemma NoLarger(f: real, n: int)
    requires n >= 1
    ensures f / n as real <= AtLeastOne(f) * CAPACITY_CEILING
  {
    Quotient(f, n as real);
    if f / n as real > AtLeastOne(f) {
      ScaleBy(AtLeastOne(f), f / n as real, n as real);
      ScaleBy(1.0, n as real, AtLeastOne(f));
    }
  }

  /** The breaking point itself fails: it is the ceiling, which does, or a middle that did. */
  lemma {:induction false} BisectFails(c: CheckSpec, w: Sweep, low: real, high: real, n: nat)
    requires ValidSweep(w) && FailsAt(c, w, high)
    ensures FailsAt(c, w, Bisect(c, w, low, high, n))
    decreases n
  {
    hide FailsAt;
    if n > 0 {
      var middle := (low + high) / 2.0;
      if FailsAt(c, w, middle) { BisectFails(c, w, low, middle, n - 1); } else { BisectFails(c, w, middle, high, n - 1); }
    }
  }

  /** So an install can sit on the limit: when the first breaking point is a whole number of
      clusters, a fleet of a multiple of it is split into shares that fail the check that
      set it. */
  lemma WholeBreakingPoint(checks: seq<CheckSpec>, fleet: Fleet, baseClusters: real, at: int, k: int)
    requires ValidSweep(Clusters(fleet)) && at >= 1 && k >= 1 && fleet[CLUSTERS] == (k * at) as real
    requires PlanFor(checks, fleet, baseClusters).first == Some(at as real)
    ensures var plan := PlanFor(checks, fleet, baseClusters);
            && plan.installs == k && plan.share[CLUSTERS] == at as real
            && exists c :: c in checks && !PastAtBase(c) && CheckAt(c, plan.share) == Fail
  {
    hide CheckAt, PastAtBase;
    var w, start, ceiling := Clusters(fleet), PlanStart(fleet, baseClusters), PlanCeiling(fleet);
    var results := Results(checks, w, start, ceiling);
    ShareOfPlan(checks, fleet, baseClusters);
    WholeShares(at, k);
    FirstReachedIs(results);
    var i :| 0 <= i < |results| && results[i] == Breaks(at as real);
    var c := checks[i];
    assert results[i] == CapacityOf(c, w, start, ceiling);
    BisectFails(c, w, start, ceiling, CAPACITY_STEPS);
    hide PlanFor, Results, Bisect;
    assert CheckAt(c, FleetAt(w, at as real)) == Fail;
  }

  /** Whether rounding down leaves an install's share below a limit of `at` clusters: from
      one cluster up, unless the limit is whole and the fleet a multiple of it; below one
      cluster, each install is given up to one all the same, and the share of so many
      installs must happen to be smaller. */
  ghost predicate RoundsBelow(f: real, at: real) {
    if at >= 1.0 then !(at.Floor as real == at && exists k: int :: k >= 1 && f == (k * at.Floor) as real)
    else f < at * WholeInstalls(f) as real
  }

  /** How many installs of one cluster hold the fleet. */
  function WholeInstalls(f: real): int {
    if Ceil(f) < 1 then 1 else Ceil(f)
  }

  lemma ShareBelowIff(f: real, at: real)
    ensures Installs(f, at) >= 1
    ensures f / Installs(f, at) as real < at <==> RoundsBelow(f, at)
  {
    hide Installs, PerInstall, WholeInstalls;
    PlanIsLeast(f, at, 1);
    if at < 1.0 {
      BelowOneIff(f, at);
    } else if at.Floor as real == at {
      MultipleIff(f, at.Floor);
    } else {
      FlooredBelow(at);
    }
  }

  lemma BelowOneIff(f: real, at: real)
    requires at < 1.0
    ensures Installs(f, at) >= 1
    ensures f / Installs(f, at) as real < at <==> f < at * WholeInstalls(f) as real
  {
    var n := Installs(f, at);
    assert PerInstall(at) == 1 && n == WholeInstalls(f);
    Quotient(f, n as real);
    BelowBy(f / n as real, at, n as real);
  }

  lemma FlooredBelow(at: real)
    requires at >= 1.0 && at.Floor as real != at
    ensures PerInstall(at) as real < at
  {
  }

  lemma BelowBy(share: real, at: real, n: real)
    requires n > 0.0
    ensures share < at <==> Times(share, n) < at * n
  {
  }

  /** With a whole limit the share is the limit exactly for its multiples. */
  lemma MultipleIff(f: real, at: int)
    requires at >= 1
    ensures Installs(f, at as real) >= 1
    ensures f / Installs(f, at as real) as real < at as real <==> !exists k: int :: k >= 1 && f == (k * at) as real
  {
    PlanIsLeast(f, at as real, 1);
    var n := Installs(f, at as real);
    Quotient(f, n as real);
    assert (at as real).Floor == at && PerInstall(at as real) == at;
    if f / n as real == at as real {
      assert f == Times(n as real, at as real) == (n * at) as real;
    }
    if k: int :| k >= 1 && f == (k * at) as real {
      WholeShares(at, k);
    }
  }

  /** At or above the first breaking point some check fails, when every check is past at the
      base or does not fail at the start. */
  lemma BeyondFirstFails(checks: seq<CheckSpec>, w: Sweep, start: real, ceiling: real, x: real)
    requires ValidSweep(w) && start <= x <= ceiling
    requires forall c :: c in checks ==> PastAtBase(c) || !FailsAt(c, w, start)
    requires FirstReached(Results(checks, w, start, ceiling)).Some?
    requires FirstReached(Results(checks, w, start, ceiling)).value <= x
    ensures exists c :: c in checks && !PastAtBase(c) && FailsAt(c, w, x)
  {
    hide FailsAt, PastAtBase, Width;
    var results := Results(checks, w, start, ceiling);
    FirstReachedIs(results);
    var i :| 0 <= i < |results| && results[i] == Breaks(FirstReached(results).value);
    assert results[i] == CapacityOf(checks[i], w, start, ceiling);
    assert checks[i] in checks;
    CapacityBrackets(checks[i], w, start, ceiling, x);
  }

  /** Exactly when the plan keeps its promise.  With every check past at the base or not
      failing where the search starts, a share that is not below that start, and one that
      is not in the search's last resolution step under the limit: no install fails a check
      that is not past at the base if and only if there is no limit or rounding down leaves
      the share below it. */
  lemma PlanKeepsPromiseIff(checks: seq<CheckSpec>, fleet: Fleet, baseClusters: real)
    requires ValidSweep(Clusters(fleet))
    requires forall c :: c in checks ==> PastAtBase(c) || !FailsAt(c, Clusters(fleet), PlanStart(fleet, baseClusters))
    requires PlanStart(fleet, baseClusters) <= PlanFor(checks, fleet, baseClusters).share[CLUSTERS]
    requires var plan := PlanFor(checks, fleet, baseClusters);
             plan.first.Some? ==> !(plan.first.value - Width(PlanStart(fleet, baseClusters), PlanCeiling(fleet)) <
                                      plan.share[CLUSTERS] < plan.first.value)
    ensures var plan := PlanFor(checks, fleet, baseClusters);
            (forall c :: c in checks && !PastAtBase(c) ==> CheckAt(c, plan.share) != Fail) <==>
              plan.first.None? || RoundsBelow(fleet[CLUSTERS], plan.first.value)
  {
    var w, start, ceiling := Clusters(fleet), PlanStart(fleet, baseClusters), PlanCeiling(fleet);
    var plan := PlanFor(checks, fleet, baseClusters);
    var x := plan.share[CLUSTERS];
    ShareOfPlan(checks, fleet, baseClusters);
    hide CheckAt, PastAtBase, PlanFor, Width, Installs, PerInstall, RoundsBelow;
    if plan.first.Some? { ShareBelowIff(fleet[CLUSTERS], plan.first.value); }
    if plan.first.Some? && plan.first.value <= x {
      BeyondFirstFails(checks, w, start, ceiling, x);
    } else {
      forall c | c in checks && !PastAtBase(c) ensures CheckAt(c, plan.share) != Fail {
        BelowFirstPasses(checks, w, start, ceiling, c, x);
      }
    }
  }

  lemma WholeShares(at: int, k: int)
    requires at >= 1 && k >= 1
    ensures Installs((k * at) as real, at as real) == k
    ensures (k * at) as real / k as real == at as real
  {
    assert (at as real).Floor == at;
    assert (k * at) as real == k as real * at as real;
    Cancel(k as real, at as real);
    assert PerInstall(at as real) == at;
    assert (k * at) as real / at as real == k as real;
    assert Ceil(k as real) == k;
  }

  lemma Cancel(k: real, a: real)
    requires k > 0.0 && a > 0.0
    ensures k * a / a == k && k * a / k == a
  {
  }
}
