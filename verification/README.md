# Verified models of the kube-agents console and CI tooling

Dafny models of the parts of kube-agents whose behaviour over whole runs is hard to see from
any one function, with proofs of what they promise. `dafny verify dfyconfig.toml` checks
everything.

| component | files | main results |
|---|---|---|
| Discovery cache of the admin console | `DiscoveryCache`, `DiscoveryProtocol`, `DiscoveryTheorems`, `DiscoveryNesting` | Every interleaving of lookups, failures, expiries and invalidations, each locked section being one step: freshness, single flight, which errors are shared, and exactly which nestings of lookups cannot deadlock. |
| Retry on a replaced gateway | `GatewayRetry` | `exec_on_gateway` over any history of that cache: its retry runs on an endpoint discovered after the failure. |
| Framed reads | `FramedRead` | Short writes, round trip, refusal of every cut frame, and exactly which output is accepted. |
| Boskos project holds | `BoskosHold`, `BoskosWalk` | A termination signal at any point: every acquired project is given back once and no signal is lost. The walk covers the pool against other runs. |
| Harness limits | `LeastSquares`, `Prediction`, `Capacity`, `CapacityCases` | Optimality of the fit, convexity of the prediction, correctness of the search for breaking points, the install plan and split. |
| Console connections | `ConnectionController`, `ConnectionTabs`, `ConnectionObject` | An invariant of every tab in every run of any number of tabs over one lease file; stale tabs let go; late results never win. |
| Scheduled audit pauses | `PauseAudits` | Intent before action; the original paused set is restored across any number of runs cut short. |
| GitLab merge-request reset | `MergeRequestReset` | No delete of a branch still needed, label before close, a record that accounts for everything. |
| Telemetry paging | `TelemetryPaging` | Resumed paging agrees with a plain read of a prefix. |

Objects the source updates in place are classes, each method proved against a function of the
old state or against the property itself; loops are loops. Threads are steps of a state machine.
Failing calls, kills, signals and what other processes do are free choices.

Places where the source promises more, or less, than it does:

- A discovery computation that looks up other keys can deadlock even when none looks up its own
  key. `DiscoveryNesting.DeadlockFreeIff` gives the exact condition: no cycle among the keys.
- The docstring of `capacities` asks for rising lines. Convexity is enough, together with a check
  that does not fail at the start of the range, and that is needed (`Capacity.CapacityIsCorrectIff`).
  `install_plan` can start where a check fails (`CapacityCases.FallingIsMissed`, `CapacityCases.DipIsReal`).
- `install_plan` floors the breaking point, which itself fails. When it is a whole number of
  clusters the installs can sit exactly on it (`CapacityCases.PlanOnTheLimit`), when it is below one
  cluster each install is given one all the same (`CapacityCases.LimitBelowOne`), and a share can
  fall below where the search started and fail there (`CapacityCases.ShareBelowTheStart`).
  `Capacity.PlanKeepsPromiseIff` says exactly when the plan keeps its promise from the start up.
- `read_record` treats an unreadable record as an empty one. A pause then forgets earlier pauses,
  and a resume reports success; `PauseAudits.RunsThenResume` says exactly when pauses are left
  behind, and `PauseAudits.ForgetsForGood` shows it happen.
- A tab's own saved lease trips its next reconcile exactly when its text is over the size that
  loading accepts: saving does not look at the size, and every source the portal builds is
  recognised (`ConnectionTabs.OnlySizeTrips`).
- An error of a logging read that is not handled loses the rows of the pages its cursor has passed,
  and, when it is the first query's, the rows the second query read as well. No call is safe from
  this while both queries have more to read (`TelemetryPaging.NeverLosesRowsIff`). A trace read
  loses nothing.

## Model

| member | source | states |
|---|---|---|
| `DiscoveryCache.RuntimeDiscoveryCache.FreshEntry` | admin_console/agent_runtime.py:720-727 | An entry is given exactly until its expiry and is gone from then on; no other entry and no flight is touched. |
| `DiscoveryCache.RuntimeDiscoveryCache.Join` | admin_console/agent_runtime.py:740-745 | First locked section of a lookup: a hit, or a place on the key's flight with the attempt count at that moment. |
| `DiscoveryCache.RuntimeDiscoveryCache.Recheck` | admin_console/agent_runtime.py:747-756 | Second section: the held answer, the shared error of an attempt that ended since joining, or the generation to compute under. |
| `DiscoveryCache.RuntimeDiscoveryCache.Fail` | admin_console/agent_runtime.py:759-763 | A failed attempt is counted with its error and stores nothing. |
| `DiscoveryCache.RuntimeDiscoveryCache.Answer` | admin_console/agent_runtime.py:764-771 | An answer is held only if its generation is still current; the attempt is counted and the error cleared either way. |
| `DiscoveryCache.RuntimeDiscoveryCache.Invalidate` | admin_console/agent_runtime.py:774-787 | Entries of the target, or of all, are dropped and every flight there moves on one generation. |
| `DiscoveryProtocol.RunInv` | admin_console/agent_runtime.py:729-787 | The inductive invariant of the whole protocol holds after every sequence of steps. |
| `DiscoveryProtocol.EntriesKept` | admin_console/agent_runtime.py:764-787 | Every step keeps held entries newer than the last invalidation of their target. |
| `DiscoveryProtocol.FlightsKept` | admin_console/agent_runtime.py:759-771 | Every step keeps a flight's error that of the last attempt to settle and its count the number that did, as the log has them. |
| `DiscoveryProtocol.HoldersKept` | admin_console/agent_runtime.py:746-747 | Every step keeps each flight's lock with exactly the lookup that is between taking and leaving it. |
| `DiscoveryProtocol.LookupsKept` | admin_console/agent_runtime.py:729-772 | Every step keeps every lookup, whatever its phase, accounted for by the log. |
| `DiscoveryProtocol.ServedKept` | admin_console/agent_runtime.py:720-787 | Every step keeps what is held for a key exactly the answer of its last attempt to settle, while that is current, for its lifetime; nothing is held while an attempt is under way. |
| `DiscoveryProtocol.LastSettledIsSettled` | admin_console/agent_runtime.py:759-771 | The latest settled attempt of a key is in the log and none settled after it. |
| `DiscoveryTheorems.Freshness` | admin_console/agent_runtime.py:729-787 | A returned value was computed, for that key, by an attempt begun after every invalidation complete before the lookup started. |
| `DiscoveryTheorems.HeldAnswersAreCurrent` | admin_console/agent_runtime.py:764-787 | A held answer comes from an attempt begun after the last invalidation of its target. |
| `DiscoveryTheorems.ServedIff` | admin_console/agent_runtime.py:720-756 | A lookup that looks is served without computing if and only if the last attempt of its key to settle succeeded, its target has not been invalidated since that attempt's lookup last looked, and less than its lifetime has passed since it settled; it gets that attempt's answer. |
| `DiscoveryTheorems.SingleFlight` | admin_console/agent_runtime.py:746-758 | Of the lookups that go through the cache, at most one computes a key at a time. With a lifetime of zero or less a lookup computes directly and is not held back. |
| `DiscoveryTheorems.SharedErrorsArePostJoin` | admin_console/agent_runtime.py:751-755 | A shared error is that of an attempt of the same key that settled after the lookup joined. |
| `DiscoveryTheorems.NoComputeBehindFailure` | admin_console/agent_runtime.py:744-758 | A lookup computes after an attempt ended behind it only if the latest outcome is a success. |
| `DiscoveryTheorems.RecheckDecides` | admin_console/agent_runtime.py:747-756 | With the lock and no fresh entry, a lookup raises the latest error if and only if that attempt failed and settled after it joined; otherwise it computes. |
| `DiscoveryTheorems.SomeoneAdvances` | admin_console/agent_runtime.py:729-772 | With nested lookups ranked downwards, from any unfinished lookup a chain of lookups each held up by the next, as lock holder or as nested lookup, ends at one that can step. |
| `DiscoveryTheorems.NoDeadlock` | admin_console/agent_runtime.py:729-772 | When nested lookups go down in some rank, no lookup of a reachable state is deadlocked: something it waits for, or it itself, can step. |
| `DiscoveryTheorems.NestingCycleDeadlocks` | admin_console/agent_runtime.py:744-758 | Any cycle of keys, of any length, has a run in which all its lookups are deadlocked, and whatever happens afterwards none of them ever steps again. |
| `DiscoveryNesting.DeadlockFreeIff` | admin_console/agent_runtime.py:729-772 | For every finite nesting of lookups: no run within it deadlocks any lookup if and only if the nesting has no cycle. |
| `DiscoveryNesting.RankOf` | admin_console/agent_runtime.py:729-772 | A nesting without a cycle has a rank that goes down along it. |
| `GatewayRetry.RunInv` | admin_console/agent_runtime.py:1253-1282 | The invariant of any number of gateway calls over one cache holds after every run. |
| `GatewayRetry.RediscoveryIsFresh` | admin_console/agent_runtime.py:1172-1178 | What the second discovery returns was computed after the invalidation that followed the failed run. |
| `GatewayRetry.RetryRefinesOneCall` | admin_console/agent_runtime.py:1253-1282 | A returned call ran on what its first discovery gave. It discovered again if and only if that run exited with an error, without timing out and after a good preparation, and ran again if and only if that discovery gave another endpoint, on that endpoint, whose discovery began after the failure. It returns its last run's result and endpoint; a second discovery that failed evicted the target. |
| `GatewayRetry.RaisesOnlyForDiscovery` | admin_console/agent_runtime.py:1253-1282 | A call raises only for its first discovery, or for its second with an error that is not the runtime's own; the runtime's own evicted the target. |
| `GatewayRetry.MovedPodIsRunOn` | admin_console/agent_runtime.py:1279-1281 | With a second discovery that gave another endpoint, the call goes on to a run on it. |
| `FramedRead.Emit` | admin_console/agent_runtime.py:127-133 | For every pattern of positive short writes the pieces make up the frame, none larger than a chunk, so a stream that cuts larger writes delivers all of it. |
| `FramedRead.LengthReadsBack` | admin_console/agent_runtime.py:627-636 | The decimal length a header carries is read back as that number. |
| `FramedRead.IntOfPadded` | admin_console/agent_runtime.py:627-636 | A length reads the same with blanks on either side, and blanks alone are no length. |
| `FramedRead.SignedReadsBack` | admin_console/agent_runtime.py:627-636 | A sign before the digits is read: a promised length can come out negative. |
| `FramedRead.UnderscoresAreSkipped` | admin_console/agent_runtime.py:627-636 | A single underscore between digits is skipped, and one at either end or doubled is refused. |
| `FramedRead.FrameRoundTrip` | admin_console/agent_runtime.py:1304-1316 | The whole frame is read as its body, whatever the body is. |
| `FramedRead.CutFrameIsRefused` | admin_console/agent_runtime.py:1304-1316 | Every proper prefix of a frame is refused; past the header, as cut short with both lengths. |
| `FramedRead.AcceptedIff` | admin_console/agent_runtime.py:1304-1316 | Output is accepted if and only if the command succeeded and either it is framed with a body of exactly the promised length that is an object, or it is unframed and itself an object. |
| `BoskosHold.MainThread.HandleTerminate` | hack/boskos_pool.py:82-88 | The handler defers every later termination before it raises. |
| `BoskosHold.MainThread.Boundary` | hack/boskos_pool.py:226-237 | Where a signal lands it goes to its own handler: one that terminates raises, one that defers keeps that signal for later; a raise uses up a signal. |
| `BoskosHold.MainThread.DeferTerminations` | hack/boskos_pool.py:230-237 | Afterwards signals are deferred; a signal that lands in the swap raises with the swap complete. |
| `BoskosHold.MainThread.Block` | hack/boskos_pool.py:248-255 | The hold is counted only once no signal can raise; each signal from then on is deferred. |
| `BoskosHold.MainThread.Unblock` | hack/boskos_pool.py:256-267 | The depth goes down by one; at depth zero a deferred or newly arrived signal is raised and not kept as well, otherwise both handlers are back and nothing is left. |
| `BoskosHold.MainThread.GiveBack` | hack/boskos_pool.py:317-327 | The project is released once, without interruption, and a release failure is recorded. |
| `BoskosHold.MainThread.Body` | hack/boskos_pool.py:292-305 | From the armed `finally` to the end of the visit, whatever ends it, the project is still owed one release. |
| `BoskosHold.MainThread.Finally` | hack/boskos_pool.py:306-327 | The project is given back whether or not taking the hold again raised. |
| `BoskosHold.MainThread.Hold` | hack/boskos_pool.py:284-327 | Inside the hold: an acquire that returned a name is followed by one release of it, one that did not by none; a completed hold made its visit; every signal ends the call or is still deferred. |
| `BoskosHold.MainThread.AcquireAndHold` | hack/boskos_pool.py:270-329 | On every path the depth returns to its value at entry. An acquire that returned a name is followed by exactly one release of it before the exit, with no raise in between; only a signal that raised before the acquire leaves it out. No signal is lost, made up or used twice; without one the call completes, finds nothing free or fails as the code inside does. What a visit recorded is kept, a failed release added after it. Were a signal acted on between the visit and the inner `try`, the project would be acquired and not released. |
| `BoskosHold.GivenBackOnce` | hack/boskos_pool.py:270-329 | A watched hold that ended idle saw no acquire and no release, one that ended given back exactly one of each, and one in between the acquire alone. |
| `BoskosWalk.Acquire` | hack/boskos_pool.py:32-37 | The pool hands out a free project no free project is older than, or none is free. |
| `BoskosWalk.Walk` | hack/boskos_pool.py:337-368 | What is visited is what was taken, each at its first time; a failed give-back is reported and no project stays held. Each hold is of a free project none is older than, and the pool is what the holds and the other runs make of it. It stops out of tries, after three repeats in a row or with nothing free, and not before. Every project free at the start that no other run touches is visited when the pool is within the bound on acquires, and one is missed when more are owed; so a quiet pool is visited whole if and only if it is within the bound. |
| `BoskosWalk.HeldEnds` | hack/boskos_pool.py:296-330 | While the walk holds a project no other run's step changes it; given back it is free, and stranded when the release failed. |
| `BoskosWalk.HoldKeepsTrack` | hack/boskos_pool.py:352-367 | While a project is owed, each hold visits a new one; so neither repeats nor the bound stop the walk early. |
| `BoskosWalk.NothingOwedAtTheEnd` | hack/boskos_pool.py:350-367 | A walk stopped by a repeat, or after as many acquires as the pool has projects, has visited all it owes. |
| `LeastSquares.FitExists` | admin_console/harness_limits.py:1195-1202 | There is no line if and only if the points that count have fewer than two levels or two places. |
| `LeastSquares.UsedAre` | admin_console/harness_limits.py:1197 | Exactly the points a record does not exclude count. |
| `LeastSquares.SameLevelIff` | admin_console/harness_limits.py:1198-1199 | Runs are one level if and only if they carry one name, or none and share a place. |
| `LeastSquares.ResidualsOfAnyLine` | admin_console/harness_limits.py:1195-1209 | The squared residuals of any line are the fit's plus a weighted square of how it differs. |
| `LeastSquares.FitIsBest` | admin_console/harness_limits.py:1195-1209 | No line has a smaller sum of squared residuals and no other line has the same. |
| `LeastSquares.TwoPoints` | admin_console/harness_limits.py:1195-1209 | Through exactly two points the line passes through both. |
| `LeastSquares.FitRange` | admin_console/harness_limits.py:1199-1209 | The fit's range is the smallest and largest place of its points. |
| `Prediction.SweepIsStraight` | admin_console/harness_limits.py:1580-1592 | Every input of a swept fleet, by clusters or by one factor, moves along a straight line. |
| `Prediction.BestIsBest` | admin_console/harness_limits.py:1353-1363 | The chosen contribution is a candidate and none is better: a fit before none, then the larger increase. |
| `Prediction.GrowthFromBase` | admin_console/harness_limits.py:1303-1326 | A series grows along its line's slope from its own base place, or the data's base point, or the line's lowest place, in that order; without a line or the input it adds nothing. |
| `Prediction.PredictIs` | admin_console/harness_limits.py:1329-1366 | A prediction is the greatest base value plus, for each factor that is no load and has a candidate, what an unbeaten candidate adds; there is none exactly without a base value. |
| `Prediction.PredictAtBase` | admin_console/harness_limits.py:1329-1366 | At a fleet on the base place of every line the prediction is the greatest base value. |
| `Prediction.EvaluateMeans` | admin_console/harness_limits.py:1406-1414 | Fail exactly above a critical line, pass exactly above none, warn otherwise. |
| `Prediction.CheckMeans` | admin_console/harness_limits.py:1430-1440 | No data exactly without a base value, no limit exactly without a line, else fail or pass by the prediction against the lines. |
| `Prediction.PastAtBaseIff` | admin_console/harness_limits.py:1529-1533 | Past at base if and only if the greatest base value is above a line. |
| `Prediction.ScalesInProportion` | admin_console/harness_limits.py:1580-1592 | Pod churn and failing Pods grow in proportion to the clusters, every other input stays, and a fleet of no clusters keeps even those. |
| `Prediction.PredictIsConvex` | admin_console/harness_limits.py:1303-1366 | Between two inputs the prediction is at most the straight line between their predictions, and whether there is one does not depend on the fleet. |
| `Prediction.PassingIsAnInterval` | admin_console/harness_limits.py:1430-1440 | Along a sweep, what does not fail between two points that do not fail does not fail either. |
| `Capacity.Capacities` | admin_console/harness_limits.py:2037-2081 | The loop over the checks and the halving of each give, per check, the answer `CapacityIsCorrectIff` is about. |
| `Capacity.CapacityIsCorrectIff` | admin_console/harness_limits.py:2037-2081 | The answer is right about every input of the range, failing nowhere, or failing from the breaking point up and passing from a 2^30th of the range below it down, if and only if the check is past at the base or does not fail at the start. |
| `Capacity.DipIsMissed` | admin_console/harness_limits.py:2037-2081 | A check that fails at the start and the middle and passes further up gets a breaking point just above the start. |
| `CapacityCases.DipIsReal` | admin_console/harness_limits.py:2037-2081 | Two measured lines, one falling and one rising, on which that happens in the range `install_plan` searches. |
| `CapacityCases.FallingIsMissed` | admin_console/harness_limits.py:2037-2081 | A falling line that fails where the search starts and is answered with no limit reached. |
| `Capacity.PlanIsLeast` | admin_console/harness_limits.py:1661-1664 | The plan's install count is the least whose share is within the floored capacity. |
| `Capacity.FirstReachedIs` | admin_console/harness_limits.py:1658-1661 | The first limit is the lowest breaking point over all checks, and there is none exactly when no check has one. |
| `Capacity.PlanPasses` | admin_console/harness_limits.py:1640-1664 | No install of the plan fails a check that is not past at the base and does not fail where the search starts, when its share is not below that start and a resolution step below the first limit; it is, whenever rounding down moved it that far. |
| `Capacity.ShareBelowIff` | admin_console/harness_limits.py:1662-1664 | An install's share is below the limit if and only if, from one cluster up, the limit is not a whole number the fleet is a multiple of, and, below one cluster, the fleet is smaller than the limit times its clusters rounded up. |
| `Capacity.BeyondFirstFails` | admin_console/harness_limits.py:1658-1664 | At or above the first limit some check that is not past at the base fails, when all others do not fail at the start. |
| `Capacity.PlanKeepsPromiseIff` | admin_console/harness_limits.py:1640-1664 | With every check past at the base or not failing at the start, and a share neither below that start nor in the search's last resolution step: no install fails a check that is not past at the base if and only if there is no limit or rounding down leaves the share below it. |
| `Capacity.WholeBreakingPoint` | admin_console/harness_limits.py:1661-1664 | When the first limit is a whole number of clusters, a fleet of a multiple of it is planned as installs that fail the check that set it. |
| `CapacityCases.PlanOnTheLimit` | admin_console/harness_limits.py:1640-1664 | A measured line, a fleet of 4094 clusters and a base of 48: the first limit is exactly 2047, and both planned installs fail. |
| `CapacityCases.LimitBelowOne` | admin_console/harness_limits.py:1661-1664 | A limit of 0.3 clusters and a fleet of 5: five installs of one cluster each, which all fail a check that passes where the search starts. |
| `CapacityCases.ShareBelowTheStart` | admin_console/harness_limits.py:1640-1664 | A fleet of 70 planned as two installs of 35, below where the search started, which fail a falling check the whole fleet passes. |
| `Capacity.SplitFleet` | admin_console/harness_limits.py:1964-1980 | The counts tried rise strictly, all but the last were too small, the last never exceeds the larger of the first and the clusters rounded up, and a container is over only at one cluster or fewer per install. |
| `Capacity.NextCountIs` | admin_console/harness_limits.py:1980 | The next count is half as many again rounded up, and no more than the clusters rounded up. |
| `ConnectionTabs.ConnectClusterKeptIff` | admin_console/connection_controller.py:173-177 | Connecting a cluster keeps the invariant if and only if it does nothing, nothing is attached to an unconnected cluster, or its own job is. |
| `ConnectionTabs.ResumeKeptIff` | admin_console/connection_controller.py:184-188 | Resuming keeps the invariant if and only if it does nothing or the project is connected. |
| `ConnectionTabs.PollKept` | admin_console/connection_controller.py:341-439 | Applying any report, with any outcome of saving, keeps the invariant. |
| `ConnectionTabs.PollMeans` | admin_console/connection_controller.py:341-439 | A cluster or refresh job puts its own target in use if its report is ready, as of the report's time, and nothing otherwise; a project job connects the project if its report is ready and touches neither lease nor file; a report that is not ready shows an error at its level, a ready one none. |
| `ConnectionTabs.PollSaves` | admin_console/connection_controller.py:283-317 | A ready cluster or refresh report saves a usable lease, a refresh that is not ready one to check again or, failing that, removes the file; the tab holds a lease exactly when the save worked and shows a persistence error exactly when not; other reports leave lease and file alone. |
| `ConnectionTabs.ProjectReportSelects` | admin_console/connection_controller.py:268-281 | A ready project report keeps a selection it still lists; otherwise selects its only host cluster, by name and location, in the tab's project; and nothing when it has none or several. |
| `ConnectionTabs.PassRefreshes` | admin_console/connection_controller.py:441-446 | With nothing stale and no report in, a pass starts a refresh of the target in use exactly once the last check is ten minutes old and no job is attached. |
| `ConnectionTabs.PassApplies` | admin_console/connection_sidebar.py:38-52 | A pass that finds nothing stale applies the attached job's report. |
| `ConnectionTabs.ActMeans` | admin_console/connection_controller.py:102-234 | What each click changes: selection, attached job, what is in use, levels and lease; only a disconnect touches the file, and removes it unless that raises. |
| `ConnectionTabs.StepMeans` | admin_console/connection_session.py:111-150 | A tab opens idle, or on its account's lease, which it checks at once; clicks and passes act on their own tab and the file. |
| `ConnectionTabs.ReopenKept` | admin_console/connection_session.py:125-141 | A reopened tab is in order, uses the lease's target if it is usable, and checks it at once either way. |
| `ConnectionTabs.StepTouchesOneTab` | admin_console/connection_controller.py:60-68 | A step changes no tab but its own, and the file only by a disconnect, a pass or another writer. |
| `ConnectionTabs.TickKept` | admin_console/connection_sidebar.py:38-52 | A maintenance pass of reconcile, poll and refresh keeps the invariant. |
| `ConnectionTabs.EveryTabInOrder` | admin_console/connection_controller.py:102-439 | In every run of any number of tabs, in every tab: a connected cluster is the verified selection in a connected project, a level is connecting exactly when its own job is attached, without a project there is no cluster, only a disconnected level shows an error, a tab with a lease shows no persistence error, and what is in use is justified. |
| `ConnectionTabs.DetachedResultNeverWins` | admin_console/connection_controller.py:190-234 | A target in use is a restored lease not detached since, or that of a ready job submitted after the last detachment. |
| `ConnectionTabs.StaleTabLetsGo` | admin_console/connection_controller.py:319-339 | At its next pass a tab whose lease no longer matches drops the cluster and its job with an error, applies no report and writes nothing. |
| `ConnectionTabs.LeaseMatchesMeans` | admin_console/connection_controller.py:319-333 | A lease that matches is the account's own, for the same place, usable exactly if the tab uses it; and such a lease with a recognised source matches. |
| `ConnectionTabs.QuietUntilUserActs` | admin_console/connection_controller.py:319-439 | Such a tab changes neither itself nor the file, whatever other tabs and finished jobs do, until its user acts. |
| `ConnectionTabs.SaveMeans` | admin_console/connection_persistence.py:102-158 | A save works exactly for an account and a target with all four names on a working disk; the file is then the new lease, and stays as it was unless the failure came after the replacement. |
| `ConnectionTabs.LoadMeans` | admin_console/connection_persistence.py:41-100 | A load gives a lease exactly when it is the account's own, of an accepted size, with all four names; then as stored but for an unrecognised source. |
| `ConnectionTabs.SaveLoadRoundTrip` | admin_console/connection_persistence.py:41-158 | A saved lease loads back as saved if and only if its text fits and its source is recognised. |
| `ConnectionTabs.OwnSaveSurvivesIff` | admin_console/connection_controller.py:283-339 | A tab's own save trips its next reconcile if and only if the text does not fit or the source is not recognised. |
| `ConnectionTabs.EverySourceIsRecognised` | admin_console/connection_controller.py:124-145 | In every run with the targets the portal builds, whatever other writers put in the file, every tab's selection and job carry a source that loading recognises. |
| `ConnectionTabs.OnlySizeTrips` | admin_console/connection_controller.py:283-339 | So in every such run a tab's own save trips its next reconcile if and only if its text is over the size limit. |
| `ConnectionObject.Controller.SelectProject` | admin_console/connection_controller.py:102-113 | Keeps the invariant; a connected or busy tab keeps its selection, any other lets go of everything that came with it. |
| `ConnectionObject.Controller.SelectTarget` | admin_console/connection_controller.py:115-122 | Raises, with nothing changed, exactly on a target of another project where the tab would take it; keeps the invariant and what is in use. |
| `ConnectionObject.Controller.ConnectCluster` | admin_console/connection_controller.py:173-177 | The object is in order afterwards if and only if the call did nothing, nothing was attached to an unconnected cluster, or its own attempt was. |
| `ConnectionObject.Controller.Resume` | admin_console/connection_controller.py:184-188 | The object is in order afterwards if and only if the call did nothing or the project is connected. |
| `ConnectionObject.Controller.Abort` | admin_console/connection_controller.py:190-207 | Keeps the invariant; a refresh goes on, any other attempt is detached with nothing left in use or connecting, and after a cluster attempt the project stays connected. |
| `ConnectionObject.Controller.DisconnectCluster` | admin_console/connection_controller.py:218-226 | Keeps the invariant; nothing is in use, no result for a cluster can still come in, the lease is gone unless deleting it raised, and project and selection stay. |
| `ConnectionObject.Controller.DisconnectProject` | admin_console/connection_controller.py:228-234 | Keeps the invariant; no job of any kind, no selection, no lease and nothing in use is left, and the file is gone unless deleting it raised. |
| `ConnectionObject.Controller.Reconcile` | admin_console/connection_controller.py:319-339 | Keeps the invariant; detaches if and only if the lease held no longer matches the file, which leaves the tab quiet; never writes the file. |
| `ConnectionObject.Controller.Poll` | admin_console/connection_controller.py:341-439 | Keeps the invariant and takes the job off; a ready cluster or refresh report puts the job's own target in use and any other report nothing; a project report touches neither lease nor file and selects as `ProjectReportSelects` says. |
| `ConnectionObject.Controller.Tick` | admin_console/connection_sidebar.py:38-52 | Keeps the invariant; a stale tab lets go, applies no report and writes nothing; a quiet one does nothing; a target comes into use only from the attached job's ready report. |
| `PauseAudits.Host.SelectTargets` | hack/ci_pause_scheduled_audits.py:147-161 | The loop picks exactly the enabled, unpaused jobs the image ships, except plumbing and the first-run audits. |
| `PauseAudits.Host.Pause` | hack/ci_pause_scheduled_audits.py:139-215 | Only jobs already on the durable record are paused, none of them a first-run audit, plumbing, unshipped, disabled or marked already; other jobs do not change; reporting OK means the targets are recorded and were read paused, twice or on the last round, and without another writer are paused. Without its inputs a run is decided and changes nothing, without its record it is worth another try; a run not cut short exits as `ExitMeans` says of its commands and its last read. When nothing goes wrong it reports OK. |
| `PauseAudits.Host.PauseRounds` | hack/ci_pause_scheduled_audits.py:183-215 | The rounds of pausing and reading back give that, with what each read showed. |
| `PauseAudits.ExitMeans` | hack/ci_pause_scheduled_audits.py:205-215 | OK if and only if every command was answered and every target reads paused; decided if and only if a command was refused, none timed out and every target reads paused or was refused; worth another try otherwise. |
| `PauseAudits.Host.Resume` | hack/ci_pause_scheduled_audits.py:218-251 | Only recorded jobs are resumed; the record goes only once none of its jobs shows paused, even when the run is then cut before it reports; with no record, or none that can be read, it changes nothing and reports OK. A run not cut short on a host of its own reports OK, and removes the record, exactly when none of its jobs shows paused; else it is worth another try exactly when a command timed out. |
| `PauseAudits.PauseKeepsAccount` | hack/ci_pause_scheduled_audits.py:139-215 | A pause, cut anywhere, keeps every job paused since the start on record, except those a replaced unreadable record named, and none paused before. |
| `PauseAudits.ResumeKeepsAccount` | hack/ci_pause_scheduled_audits.py:218-251 | So does a resume, and one that read the record and reports OK leaves exactly the original paused set and what was lost. |
| `PauseAudits.RunsThenResume` | hack/ci_pause_scheduled_audits.py:139-251 | After any number of pauses and resumes, each doing what a run may do, cut anywhere and able to read the record or not, and a resume that reports OK: exactly the original paused set, if and only if no pause replaced an unreadable record while a recorded job was paused and the resume could read the record or had nothing to undo. A resume that cannot read it reports OK. |
| `PauseAudits.ForgetsForGood` | hack/ci_pause_scheduled_audits.py:124-251 | Where a recorded job is paused and another is to be paused, a pause that cannot read the record and a resume that can both report OK with nothing else going wrong, and leave the first job paused. |
| `PauseAudits.HalfPaused` | hack/ci_pause_scheduled_audits.py:124-173 | Two shipped audits, one paused and both on record, as a pause cut between them leaves them: such a place. |
| `MergeRequestReset.Reset.Run` | hack/ci_gitlab_forge.py:650-718 | No delete names the default branch or one a request not recorded as closed needs; labels precede closes; only the agent's requests are written to; a dry run writes nothing; the run finishes if and only if no read of the branches failed and no write was refused for the token's rate; the lists match the writes, partition the requests unless refused, and on completion the leftover branches, a branch being kept if and only if it is still needed. |
| `MergeRequestReset.Reset.CloseOne` | hack/ci_gitlab_forge.py:669-689 | One request is labelled only if an audit's, then closed, or recorded as unclosed with its branches in use. |
| `MergeRequestReset.Reset.DeleteBranches` | hack/ci_gitlab_forge.py:701-718 | Only leftover branches not in use are deleted, and each is kept, deleted or recorded as undeleted. |
| `MergeRequestReset.Reset.Leftover` | hack/ci_gitlab_forge.py:690-700 | The candidates are the listed branches other than the default that a read finds present. |
| `MergeRequestReset.Reset.DeletesAreSafe` | hack/ci_gitlab_forge.py:663-718 | Keeping the branches of every request not closed makes every delete safe. |
| `MergeRequestReset.Reset.KeptIffNeeded` | hack/ci_gitlab_forge.py:663-706 | A leftover branch is kept if and only if a listed request not closed needs it. |
| `MergeRequestReset.BranchesInUse` | hack/ci_gitlab_forge.py:641-647 | The names kept are exactly those the request needs: its target, and its source when the project's own. |
| `MergeRequestReset.AgentsAndOthers` | hack/ci_gitlab_forge.py:597-600 | The agent's requests and the others partition the listing. |
| `TelemetryPaging.PageCursor.Pass` | admin_console/telemetry.py:829-836 | Past one more page, the cursor stands at the next token of the chain and is complete exactly at its end. |
| `TelemetryPaging.AdvanceQuery` | admin_console/telemetry.py:776-837 | The rows returned extend a plain read of the pages passed before to one of the pages passed now; a read that raised has not passed the page it raised at, and returns no rows. |
| `TelemetryPaging.AdvanceExtendsPrefix` | admin_console/telemetry.py:776-837 | For every pattern of failures: the same, within the budget, and without an error it stops only at the end of the chain or of the budget. |
| `TelemetryPaging.Provider.AdvanceLogging` | admin_console/telemetry.py:839-866 | Both queries are read on and kept as `AgreementSurvives` says: the rows stay those of both prefixes after every call that does not raise, and after every call that is safe. Without credentials only errors are noted. |
| `TelemetryPaging.Provider.AdvanceTrace` | admin_console/telemetry.py:906-984 | The cursor moves and the call raises as a plain read of the chain would, and the traces kept are exactly those of the pages passed, after every failure. |
| `TelemetryPaging.Provider.GetSnapshot` | admin_console/telemetry.py:695-698 | The first load reads `log_pages` pages of logging and `trace_pages` of traces, rows and cursors being those of a plain read, so a source that had more and shows no error has passed a page; it keeps the agreement, and a later call changes nothing. |
| `TelemetryPaging.Provider.LoadMore` | admin_console/telemetry.py:700-726 | Refused below one page; otherwise the next pages of logging, of traces, or of a first load, exactly as a plain read where there is more and untouched where there is not; each source that had more and shows no error has passed a page; raises only on an error that is not handled. |
| `TelemetryPaging.MergeKeys` | admin_console/telemetry.py:861-864 | A plain read keeps exactly the keys of its rows, each with one of the rows of that key. |
| `TelemetryPaging.DisjointReadsAreExact` | admin_console/telemetry.py:839-866 | With no key from both queries, agreement means the rows are exactly the two plain reads. |
| `TelemetryPaging.AgreementSurvives` | admin_console/telemetry.py:839-866 | Both queries at once: the agreement survives every call that does not raise, and every call from cursors of which at most one has more to read, one page of it. |
| `TelemetryPaging.RowsCanBeLost` | admin_console/telemetry.py:839-866 | From cursors at any other places there are pages and failures for which the call raises and a row of a page passed is not kept, including rows the second query read when the first raised. |
| `TelemetryPaging.NeverLosesRowsIff` | admin_console/telemetry.py:839-866 | For all pages and failures no row is lost, if and only if at most one query has more to read and the call reads at most one page of it. |

## Left out

- User interface, charts, themes and tables: no logic beyond display.
- `kubectl`, `gcloud`, HTTP and subprocess plumbing, SQL readers, redaction and log or trace normalisation: their results are free choices, or parameters, here.
- Small projections (kanban, cron and causal views, case owners) and `hack/ci_fence_cards.py`: they would add only easy members.
- The Go operator, A2A bus and API proxy are not part of this model.
- Discovery cache: how a target is turned into a key, and where the default lifetime comes from. An expiring lifetime is a parameter of each lookup. Retries inside a computation are part of the computation.
- Deadlock freedom says that what a lookup waits for can step, not that a scheduler lets it.
- FramedRead: text is ASCII, as the writer makes it. `int` also reads digits and blanks of other scripts and refuses numbers of more than 4300 digits. JSON reading is a parameter known only to refuse empty text and text starting with `K`.
- Boskos holds: a signal acts where the interpreter looks for one, that is at a function's entry, after a built-in call returns and at a loop's next round. Between the end of the visit and the inner `try` of the `finally` it does not look; the model has that place under a flag. Holds in worker threads, a hold nested inside a visit and acquiring by name are not modelled, nor is the content of a heartbeat.
- BoskosWalk.Walk: a visit that raises ends the walk and is not modelled; each acquire and each release is one change of the pool, and a reset of stranded projects is another run's step.
- LeastSquares, Prediction and Capacity: exact reals instead of floats. Records enter as the series the prediction reads from them; the highest line crossed, the share of growth at which a threshold is reached, and the order of the results are display.
- Capacity.SplitFleet: which containers are too large for a share is a parameter.
- Connections: JSON, file modes and symbolic links of the lease file; a save replaces the file or fails with or without having done so, and whether the text fits is a parameter. Name patterns are reduced to "not empty". Report texts, and the constructor for an already verified connection, are left out; so is the session's own first selection of a target.
- Pauses: a roster with the same job twice, and the printed report.
- MergeRequestReset.Reset.Run: merge requests are numbered apart, as GitLab numbers them. The read-back that decides `clean` and the retries inside one call are not modelled; a call that failed may have taken effect, and a delete that finds the branch gone counts as done.
- TelemetryPaging.Provider.GetSnapshot: a first load that raised is repeated over a new time window while its cursors keep their place; the model keeps one fixed chain of pages per source. The deadline and the two worker threads, which share nothing, are not modelled.
