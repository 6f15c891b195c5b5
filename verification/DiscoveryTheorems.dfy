/** What the discovery cache promises, for every run of DiscoveryProtocol. */
module DiscoveryTheorems {
  import opened Options
  import opened DiscoveryCache
  import opened DiscoveryProtocol

  /** A value a lookup returns is what one attempt of its own key computed, and
      that attempt began after every invalidation of its target that was complete
      before the lookup started. */
  lemma Freshness(actions: seq<Action>, t: Tid)
    requires t in Run(actions).lookups && Run(actions).lookups[t].phase.Done?
    requires Run(actions).lookups[t].phase.outcome.Returned?
    ensures var s := Run(actions);
            var l := s.lookups[t];
            var a := l.phase.outcome.answer;
            && Produced(s.log, l.key, a.begun, Answered(a.text))
            && forall i :: InvalidatedAt(s.log, l.key.target, i) && i < l.started ==> i < a.begun
  {
    RunInv(actions);
    assert LookupOk(Run(actions), Run(actions).lookups[t]);
  }

  /** What is held was computed by an attempt that began after the last
      invalidation of its target so far, even one that landed while it ran. */
  lemma HeldAnswersAreCurrent(actions: seq<Action>, key: CacheKey)
    requires key in Run(actions).cache.entries
    ensures var s := Run(actions);
            var a := s.cache.entries[key].value;
            && Produced(s.log, key, a.begun, Answered(a.text))
            && forall i :: InvalidatedAt(s.log, key.target, i) ==> i < a.begun
  {
    RunInv(actions);
    var s := Run(actions);
    var a := s.cache.entries[key].value;
    forall i | InvalidatedAt(s.log, key.target, i) ensures i < a.begun {
      assert a.begun <= i ==> !InvalidatedAt(s.log, key.target, i);
    }
  }

  /** At most one attempt of a key runs at a time. */
  lemma SingleFlight(actions: seq<Action>, t: Tid, u: Tid)
    requires t in Run(actions).lookups && u in Run(actions).lookups
    requires Run(actions).lookups[t].key == Run(actions).lookups[u].key
    requires Run(actions).lookups[t].phase.Computing? && Run(actions).lookups[u].phase.Computing?
    ensures t == u
  {
    RunInv(actions);
    assert HoldersOk(Run(actions));
  }

  /** A shared error is the error of an attempt of the same key that settled
      after the lookup joined. */
  lemma SharedErrorsArePostJoin(actions: seq<Action>, t: Tid)
    requires t in Run(actions).lookups && Run(actions).lookups[t].phase.Done?
    requires Run(actions).lookups[t].phase.outcome.RaisedShared?
    ensures var s := Run(actions);
            var l := s.lookups[t];
            var o := l.phase.outcome;
            && l.started <= o.joinTime <= o.at
            && SettledAt(s.log, l.key, o.at) && s.log[o.at].error == Some(o.fault)
            && Produced(s.log, l.key, o.fault.begun, Failed(o.fault.text))
  {
    RunInv(actions);
    assert LookupOk(Run(actions), Run(actions).lookups[t]);
  }

  /** While it computes, a lookup is never behind a failure that is still the
      latest outcome: the last attempt to settle ended before the lookup joined,
      or it succeeded. */
  lemma NoComputeBehindFailure(actions: seq<Action>, t: Tid, at: int)
    requires t in Run(actions).lookups && Run(actions).lookups[t].phase.Computing?
    requires SettledAt(Run(actions).log, Run(actions).lookups[t].key, at)
    requires Run(actions).lookups[t].phase.joinTime <= at
    ensures var s := Run(actions);
            exists last :: at <= last && SettledAt(s.log, s.lookups[t].key, last) && s.log[last].error.None?
              && forall i :: SettledAt(s.log, s.lookups[t].key, i) ==> i <= last
  {
    RunInv(actions);
    var s := Run(actions);
    var key := s.lookups[t].key;
    assert LookupOk(s, s.lookups[t]);
    LastSettledIsSettled(s.log, key);
    assert SettledAt(s.log, key, LastSettled(s.log, key));
  }

  /** With the flight's lock in hand and no fresh entry, a lookup shares an error
      exactly when the last attempt to settle failed and settled after it joined;
      in every other case it asks the cluster itself. */
  lemma RecheckDecides(actions: seq<Action>, t: Tid)
    requires t in Run(actions).lookups && Run(actions).lookups[t].phase.Locked?
    requires Fresh(Run(actions).cache, Run(actions).lookups[t].key, Run(actions).clock).None?
    ensures var s := Run(actions);
            var l := s.lookups[t];
            var next := Apply(s, Recheck(t)).lookups[t].phase;
            var behind := LastSettled(s.log, l.key) >= l.phase.joinTime && LastError(s.log, l.key).Some?;
            && (next.Leaving? <==> behind) && (next.Ready? <==> !behind)
            && (behind ==> next.outcome.RaisedShared? && Some(next.outcome.fault) == LastError(s.log, l.key))
  {
    RunInv(actions);
    var s := Run(actions);
    assert LookupOk(s, s.lookups[t]);
    LastSettledIsSettled(s.log, s.lookups[t].key);
    assert LastError(s.log, s.lookups[t].key) == s.cache.flights[s.lookups[t].key].error;
  }

  /** There is an answer to serve: the last attempt of `key` to settle succeeded, its target
      has not been invalidated since its lookup last looked, and less than its lifetime has
      passed since it settled. */
  ghost predicate Servable(s: State, key: CacheKey) {
    Current(s.log, key) && s.clock < Expiry(s.log, key)
  }

  /** A lookup that looks, before it queues or with the flight's lock in hand, is served
      without computing exactly when there is an answer to serve, and then with that
      attempt's answer. */
  lemma ServedIff(actions: seq<Action>, t: Tid)
    requires t in Run(actions).lookups
    ensures var s := Run(actions);
            var key := s.lookups[t].key;
            s.lookups[t].phase.Called? ==>
              var next := Apply(s, Join(t)).lookups[t].phase;
              && (next.Done? <==> Servable(s, key)) && (next.Waiting? <==> !Servable(s, key))
              && (next.Done? ==> next.outcome.Returned? && next.outcome.answer.begun == LastTrial(s.log, key).begun)
    ensures var s := Run(actions);
            var key := s.lookups[t].key;
            s.lookups[t].phase.Locked? ==>
              var next := Apply(s, Recheck(t)).lookups[t].phase;
              && (next.Leaving? && next.outcome.Returned? <==> Servable(s, key))
              && (Servable(s, key) ==> next.outcome.answer.begun == LastTrial(s.log, key).begun)
  {
    var s := Run(actions);
    var key := s.lookups[t].key;
    RunInv(actions);
    assert LookupOk(s, s.lookups[t]) && HeldOk(s, key);
    FreshIff(s, key);
    hide Run, Current, Expiry;
    if s.lookups[t].phase.Called? { assert Enabled(s, Join(t)); }
    if s.lookups[t].phase.Locked? { assert Enabled(s, Recheck(t)); }
  }

  lemma FreshIff(s: State, key: CacheKey)
    requires HeldOk(s, key)
    ensures Fresh(s.cache, key, s.clock).Some? <==> Servable(s, key)
    ensures Servable(s, key) ==> Fresh(s.cache, key, s.clock).value.begun == LastTrial(s.log, key).begun
  {
  }

  // ---- Deadlock ----------------------------------------------------------------

  /** Every lookup a computation makes is for a key of lower rank than its own. */
  ghost predicate Ranked(s: State, rank: CacheKey -> nat) {
    forall t :: Active(s, t) && s.lookups[t].parent.Some? && s.lookups[t].parent.value in s.lookups ==>
      rank(s.lookups[t].key) < rank(s.lookups[s.lookups[t].parent.value].key)
  }

  predicate Advances(a: Action) {
    IsLookupAction(a) && !a.Call?
  }

  /** What an unfinished lookup can be held up by: a queued one by the lookup that holds
      its flight's lock, a computation by the lookups it makes. */
  ghost predicate WaitsFor(s: State, t: Tid, u: Tid) {
    && t in s.lookups && u in s.lookups
    && (|| (s.lookups[t].phase.Waiting? && s.lookups[t].key in s.holders && s.holders[s.lookups[t].key] == u)
        || (Runs(s.lookups[t].phase) && Active(s, u) && s.lookups[u].parent == Some(t)))
  }

  /** From `t`, each lookup held up by the next. */
  ghost predicate Chain(s: State, t: Tid, path: seq<Tid>) {
    path != [] && path[0] == t && forall i :: 0 <= i < |path| - 1 ==> WaitsFor(s, path[i], path[i + 1])
  }

  /** An unfinished lookup is deadlocked when neither it nor anything it waits for,
      however far along the chain, can take a step. */
  ghost predicate Deadlocked(s: State, t: Tid) {
    && Active(s, t)
    && forall path, a :: Chain(s, t, path) && Advances(a) && a.t == path[|path| - 1] ==> !Enabled(s, a)
  }

  lemma ChainLonger(s: State, t: Tid, u: Tid, path: seq<Tid>)
    requires WaitsFor(s, t, u) && Chain(s, u, path)
    ensures Chain(s, t, [t] + path)
  {
    var longer := [t] + path;
    forall i | 0 <= i < |longer| - 1 ensures WaitsFor(s, longer[i], longer[i + 1]) {
      if i > 0 { assert WaitsFor(s, path[i - 1], path[i]); }
    }
  }

  /** The step of a lookup that is held up by no other. */
  function NextStep(s: State, t: Tid): Action
    requires t in s.lookups
  {
    match s.lookups[t].phase
    case Called => Join(t)
    case Waiting(_, _) => Lock(t)
    case Locked(_, _) => Recheck(t)
    case Ready(_, _, _) => Begin(t)
    case Uncached => Begin(t)
    case Ended(_, _, _, _, _) => Settle(t)
    case Leaving(_) => Release(t)
    case Computing(_, _, _, _) => End(t, Interrupted)
    case Direct(_) => End(t, Interrupted)
    case Done(_) => Join(t)
  }

  lemma StepsOrWaits(s: State, t: Tid)
    requires Inv(s) && Active(s, t)
    ensures Advances(NextStep(s, t)) && NextStep(s, t).t == t
    ensures Enabled(s, NextStep(s, t)) || exists u :: WaitsFor(s, t, u)
  {
    var l := s.lookups[t];
    assert LookupOk(s, l);
    if l.phase.Waiting? && l.key in s.holders {
      assert WaitsFor(s, t, s.holders[l.key]);
    } else if Runs(l.phase) && HasActiveChild(s, t) {
      var c :| c in s.lookups && Active(s, c) && s.lookups[c].parent == Some(t);
      assert WaitsFor(s, t, c);
    }
  }

  /** What a lookup waits for is unfinished, and of lower rank or the holder of its own
      key's lock, which is not itself queued. */
  lemma WaitsDownwards(s: State, rank: CacheKey -> nat, t: Tid, u: Tid)
    requires Inv(s) && Ranked(s, rank) && Active(s, t) && WaitsFor(s, t, u)
    ensures Active(s, u)
    ensures || rank(s.lookups[u].key) < rank(s.lookups[t].key)
            || (s.lookups[u].key == s.lookups[t].key && s.lookups[t].phase.Waiting? && !s.lookups[u].phase.Waiting?)
  {
  }

  /** With nested lookups ranked downwards, the chain from any unfinished lookup leads to
      one that can take a step. */
  lemma {:induction false} SomeoneAdvances(s: State, rank: CacheKey -> nat, t: Tid) returns (path: seq<Tid>, a: Action)
    requires Inv(s) && Ranked(s, rank) && Active(s, t)
    ensures Advances(a) && Enabled(s, a)
    ensures Chain(s, t, path) && a.t == path[|path| - 1]
    decreases rank(s.lookups[t].key), if s.lookups[t].phase.Waiting? then 1 else 0
  {
    assert t in s.lookups;
    hide Inv, Ranked, Active, Enabled, WaitsFor;
    StepsOrWaits(s, t);
    if Enabled(s, NextStep(s, t)) {
      path, a := [t], NextStep(s, t);
    } else {
      var u :| WaitsFor(s, t, u);
      WaitsDownwards(s, rank, t, u);
      path, a := SomeoneAdvances(s, rank, u);
      ChainLonger(s, t, u, path);
      path := [t] + path;
    }
  }

  /** No lookup of a reachable state is deadlocked when nested lookups go down in rank;
      in particular none is when computations make no lookups at all. */
  lemma NoDeadlock(actions: seq<Action>, rank: CacheKey -> nat, t: Tid)
    requires Ranked(Run(actions), rank)
    ensures !Deadlocked(Run(actions), t)
  {
    var s := Run(actions);
    RunInv(actions);
    if Active(s, t) {
      var path, a := SomeoneAdvances(s, rank, t);
    }
  }

  // A cycle of nested lookups does deadlock.  Computation i of the cycle looks up
  // the key of computation i + 1, whose flight is locked until it gets its answer.

  function Perform(s: State, actions: seq<Action>): State
    decreases |actions|
  {
    if actions == [] then s else Perform(Apply(s, actions[0]), actions[1..])
  }

  lemma {:induction false} RunThenPerform(a: seq<Action>, b: seq<Action>)
    ensures Run(a + b) == Perform(Run(a), b)
    decreases |b|
  {
    if b == [] {
      assert a + b == a;
    } else {
      assert a + b == (a + [b[0]]) + b[1..];
      RunThenPerform(a + [b[0]], b[1..]);
      assert (a + [b[0]])[..|a|] == a;
    }
  }

  function StartComputing(t: Tid, key: CacheKey): seq<Action> {
    [Call(t, key, 1.0, None), Join(t), Lock(t), Recheck(t), Begin(t)]
  }

  function StartNested(t: Tid, key: CacheKey, parent: Tid): seq<Action> {
    [Call(t, key, 1.0, Some(parent)), Join(t)]
  }

  function NextKey(keys: seq<CacheKey>, i: nat): CacheKey
    requires i < |keys|
  {
    keys[(i + 1) % |keys|]
  }

  function Openings(keys: seq<CacheKey>, n: nat): seq<Action>
    requires n <= |keys|
  {
    if n == 0 then [] else Openings(keys, n - 1) + StartComputing(n - 1, keys[n - 1])
  }

  function Nestings(keys: seq<CacheKey>, n: nat): seq<Action>
    requires n <= |keys|
  {
    if n == 0 then [] else Nestings(keys, n - 1) + StartNested(|keys| + n - 1, NextKey(keys, n - 1), n - 1)
  }

  ghost predicate ComputingThe(s: State, t: Tid, key: CacheKey) {
    t in s.lookups && s.lookups[t].key == key && s.lookups[t].phase.Computing? && s.lookups[t].parent.None?
      && key in s.holders && s.holders[key] == t
  }

  ghost predicate QueuedFor(s: State, t: Tid, key: CacheKey, parent: Tid) {
    t in s.lookups && s.lookups[t].key == key && s.lookups[t].phase.Waiting? && s.lookups[t].parent == Some(parent)
  }

  /** The join of a lookup of a key nothing is known about. */
  lemma OneJoined(s: State, t: Tid)
    requires t in s.lookups && s.lookups[t].phase.Called?
    requires s.lookups[t].key !in s.cache.flights && s.lookups[t].key !in s.cache.entries
    ensures var s', l := Apply(s, Join(t)), s.lookups[t];
            && s'.lookups == s.lookups[t := l.(phase := Waiting(0, |s.log|))] && s'.holders == s.holders
            && s'.cache.entries == s.cache.entries && s'.cache.flights == s.cache.flights[l.key := Flight(0, None, 0)]
  {
  }

  lemma OneCalled(s: State, t: Tid, key: CacheKey)
    requires t !in s.lookups
    ensures var s' := Apply(s, Call(t, key, 1.0, None));
            && s'.lookups == s.lookups[t := Lookup(key, 1.0, None, |s.log|, Called)]
            && s'.holders == s.holders && s'.cache == s.cache && |s'.log| == |s.log| + 1
  {
  }

  lemma OneTakesLock(s: State, t: Tid)
    requires t in s.lookups && s.lookups[t].phase.Waiting? && s.lookups[t].key !in s.holders
    ensures var s', l := Apply(s, Lock(t)), s.lookups[t];
            && s'.lookups == s.lookups[t := l.(phase := Locked(l.phase.joinedAt, l.phase.joinTime))]
            && s'.holders == s.holders[l.key := t] && s'.cache == s.cache
  {
  }

  lemma PerformThree(s: State, a: seq<Action>)
    requires |a| == 3
    ensures Perform(s, a) == Apply(Apply(Apply(s, a[0]), a[1]), a[2])
  {
    hide Apply;
    var s1, s2 := Apply(s, a[0]), Apply(Apply(s, a[0]), a[1]);
    assert a[1..][1..][1..] == [] && a[1..][0] == a[1] && a[1..][1..][0] == a[2];
    assert Perform(s, a) == Perform(s1, a[1..]) == Perform(s2, a[1..][1..]);
  }

  /** Starting a computation, up to the lock. */
  lemma OneLocked(s: State, t: Tid, key: CacheKey)
    requires t !in s.lookups && key !in s.cache.flights && key !in s.cache.entries && key !in s.holders
    ensures var s' := Perform(s, StartComputing(t, key)[..3]);
            && s'.lookups == s.lookups[t := Lookup(key, 1.0, None, |s.log|, Locked(0, |s.log| + 1))]
            && s'.holders == s.holders[key := t]
            && s'.cache.entries == s.cache.entries && s'.cache.flights == s.cache.flights[key := Flight(0, None, 0)]
  {
    hide Apply, Perform;
    PerformThree(s, StartComputing(t, key)[..3]);
    OneCalled(s, t, key);
    var s1 := Apply(s, Call(t, key, 1.0, None));
    OneJoined(s1, t);
    OneTakesLock(Apply(s1, Join(t)), t);
  }

  /** And from it. */
  lemma OneBegun(s: State, t: Tid, key: CacheKey)
    requires t in s.lookups && s.lookups[t].key == key && s.lookups[t].parent.None? && s.lookups[t].phase.Locked?
    requires key in s.holders && s.holders[key] == t
    requires key in s.cache.flights && s.cache.flights[key] == Flight(0, None, 0) && key !in s.cache.entries
    ensures var s' := Perform(s, [Recheck(t), Begin(t)]);
            && ComputingThe(s', t, key)
            && s'.lookups.Keys == s.lookups.Keys && (forall u :: u in s.lookups && u != t ==> s'.lookups[u] == s.lookups[u])
            && s'.holders == s.holders && s'.cache == s.cache
  {
    var s1 := Apply(s, Recheck(t));
    assert s1.lookups[t].phase.Ready?;
    var s2 := Apply(s1, Begin(t));
    assert [Recheck(t), Begin(t)][1..] == [Begin(t)] && [Begin(t)][1..] == [];
    assert Perform(s, [Recheck(t), Begin(t)]) == Perform(s1, [Begin(t)]) == Perform(s2, []);
  }

  lemma {:induction false} PerformSplits(s: State, a: seq<Action>, b: seq<Action>)
    ensures Perform(s, a + b) == Perform(Perform(s, a), b)
    decreases |a|
  {
    if a == [] {
      assert a + b == b;
    } else {
      assert (a + b)[1..] == a[1..] + b;
      PerformSplits(Apply(s, a[0]), a[1..], b);
    }
  }

  lemma OneComputing(s: State, t: Tid, key: CacheKey)
    requires t !in s.lookups && key !in s.cache.flights && key !in s.cache.entries && key !in s.holders
    ensures var s' := Perform(s, StartComputing(t, key));
            && ComputingThe(s', t, key)
            && (forall u :: u in s'.lookups <==> u in s.lookups || u == t) && (forall u :: u in s.lookups ==> s'.lookups[u] == s.lookups[u])
            && s'.holders == s.holders[key := t]
            && s'.cache.entries == s.cache.entries && (forall k :: k in s'.cache.flights <==> k in s.cache.flights || k == key)
  {
    var a := StartComputing(t, key);
    assert a == a[..3] + [Recheck(t), Begin(t)];
    hide Perform;
    OneLocked(s, t, key);
    PerformSplits(s, a[..3], [Recheck(t), Begin(t)]);
    OneBegun(Perform(s, a[..3]), t, key);
  }

  lemma OneQueued(s: State, t: Tid, key: CacheKey, parent: Tid)
    requires t !in s.lookups && parent in s.lookups && Runs(s.lookups[parent].phase)
    requires key in s.cache.flights && key !in s.cache.entries
    ensures var s' := Perform(s, StartNested(t, key, parent));
            && QueuedFor(s', t, key, parent)
            && (forall u :: u in s'.lookups <==> u in s.lookups || u == t) && (forall u :: u in s.lookups ==> s'.lookups[u] == s.lookups[u])
            && s'.holders == s.holders
            && s'.cache.entries == s.cache.entries && (forall k :: k in s'.cache.flights <==> k in s.cache.flights)
  {
    var a := StartNested(t, key, parent);
    var s1 := Apply(s, a[0]);
    var s2 := Apply(s1, a[1]);
    assert a[1..] == [Join(t)] && [Join(t)][1..] == [];
    assert Perform(s, a) == Perform(s1, [Join(t)]) == Perform(s2, []);
  }

  ghost predicate Distinct(keys: seq<CacheKey>) {
    forall i, j :: 0 <= i < j < |keys| ==> keys[i] != keys[j]
  }

  ghost predicate Opened(s: State, keys: seq<CacheKey>, n: nat)
    requires n <= |keys|
  {
    && (forall t: nat :: t in s.lookups <==> t < n)
    && (forall i :: 0 <= i < n ==> ComputingThe(s, i, keys[i]))
    && (forall k :: k in s.cache.flights || k in s.holders ==> k in keys[..n])
    && (forall i :: 0 <= i < n ==> keys[i] in s.cache.flights)
    && s.cache.entries == map[]
  }

  lemma OpensOneMore(s: State, keys: seq<CacheKey>, n: nat)
    requires n < |keys| && Distinct(keys) && Opened(s, keys, n)
    ensures Opened(Perform(s, StartComputing(n, keys[n])), keys, n + 1)
  {
    assert keys[n] !in keys[..n];
    OneComputing(s, n, keys[n]);
    assert keys[..n + 1] == keys[..n] + [keys[n]];
    var s' := Perform(s, StartComputing(n, keys[n]));
    forall i | 0 <= i < n ensures ComputingThe(s', i, keys[i]) {
      assert ComputingThe(s, i, keys[i]);
    }
  }

  lemma NothingOpened(keys: seq<CacheKey>)
    ensures Opened(Run([]), keys, 0)
  {
  }

  lemma {:induction false} CycleOpens(keys: seq<CacheKey>, n: nat)
    requires n <= |keys| && Distinct(keys)
    ensures Opened(Run(Openings(keys, n)), keys, n)
  {
    hide Opened, Run, Perform, StartComputing;
    if n == 0 {
      NothingOpened(keys);
    } else {
      CycleOpens(keys, n - 1);
      RunThenPerform(Openings(keys, n - 1), StartComputing(n - 1, keys[n - 1]));
      OpensOneMore(Run(Openings(keys, n - 1)), keys, n - 1);
    }
  }

  /** The nested lookup that computation `i` waits for is queued on the next key. */
  ghost predicate QueuedBehindNext(s: State, keys: seq<CacheKey>, i: nat)
    requires i < |keys|
  {
    QueuedFor(s, |keys| + i, NextKey(keys, i), i)
  }

  ghost predicate Nested(s: State, keys: seq<CacheKey>, n: nat)
    requires n <= |keys|
  {
    && (forall t: nat :: t in s.lookups <==> t < |keys| + n)
    && (forall i :: 0 <= i < |keys| ==> ComputingThe(s, i, keys[i]))
    && (forall i :: 0 <= i < n ==> QueuedBehindNext(s, keys, i))
    && (forall i :: 0 <= i < |keys| ==> keys[i] in s.cache.flights)
    && s.cache.entries == map[]
  }

  lemma NestsOneMore(s: State, keys: seq<CacheKey>, n: nat)
    requires n < |keys| && Nested(s, keys, n)
    ensures Nested(Perform(s, StartNested(|keys| + n, NextKey(keys, n), n)), keys, n + 1)
  {
    assert ComputingThe(s, n, keys[n]);
    OneQueued(s, |keys| + n, NextKey(keys, n), n);
    var s' := Perform(s, StartNested(|keys| + n, NextKey(keys, n), n));
    forall i | 0 <= i < |keys| ensures ComputingThe(s', i, keys[i]) {
      assert ComputingThe(s, i, keys[i]);
    }
    forall i | 0 <= i < n ensures QueuedBehindNext(s', keys, i) {
      assert QueuedBehindNext(s, keys, i);
    }
  }

  lemma OpenedIsNested(s: State, keys: seq<CacheKey>)
    requires Opened(s, keys, |keys|)
    ensures Nested(s, keys, 0)
  {
  }

  lemma {:induction false} CycleNests(keys: seq<CacheKey>, n: nat)
    requires n <= |keys| && Distinct(keys)
    ensures Nested(Run(Openings(keys, |keys|) + Nestings(keys, n)), keys, n)
  {
    hide Nested, Opened, Run, Perform, StartNested, StartComputing;
    var opening := Openings(keys, |keys|);
    if n == 0 {
      CycleOpens(keys, |keys|);
      OpenedIsNested(Run(opening), keys);
      assert opening + Nestings(keys, 0) == opening;
    } else {
      CycleNests(keys, n - 1);
      var before := opening + Nestings(keys, n - 1);
      var last := StartNested(|keys| + n - 1, NextKey(keys, n - 1), n - 1);
      assert opening + Nestings(keys, n) == before + last;
      RunThenPerform(before, last);
      NestsOneMore(Run(before), keys, n - 1);
    }
  }

  lemma NestedCannotAdvance(s: State, keys: seq<CacheKey>, a: Action)
    requires keys != [] && Nested(s, keys, |keys|) && Advances(a)
    ensures !Enabled(s, a)
  {
    var n := |keys|;
    if a.t < n {
      assert ComputingThe(s, a.t, keys[a.t]) && QueuedBehindNext(s, keys, a.t);
      assert Active(s, n + a.t);
    } else if a.t < n + n {
      assert QueuedBehindNext(s, keys, a.t - n);
      var j := (a.t - n + 1) % n;
      assert ComputingThe(s, j, keys[j]);
    }
  }

  /** Each computation of the cycle is running, and waits for a lookup queued behind the
      next one. */
  ghost predicate CycleHolds(s: State, keys: seq<CacheKey>) {
    forall i :: 0 <= i < |keys| ==> ComputingThe(s, i, keys[i]) && QueuedBehindNext(s, keys, i)
  }

  lemma ComputingCannotStep(s: State, t: Tid, child: Tid, a: Action)
    requires t in s.lookups && Runs(s.lookups[t].phase) && Active(s, child) && s.lookups[child].parent == Some(t)
    requires IsLookupAction(a) && a.t == t
    ensures !Enabled(s, a)
  {
  }

  lemma QueuedCannotStep(s: State, t: Tid, a: Action)
    requires t in s.lookups && s.lookups[t].phase.Waiting? && s.lookups[t].key in s.holders
    requires IsLookupAction(a) && a.t == t
    ensures !Enabled(s, a)
  {
  }

  lemma CycleCannotStep(s: State, keys: seq<CacheKey>, a: Action)
    requires CycleHolds(s, keys) && IsLookupAction(a) && a.t < 2 * |keys|
    ensures !Enabled(s, a)
  {
    var n := |keys|;
    hide Enabled;
    if a.t < n {
      assert ComputingThe(s, a.t, keys[a.t]) && QueuedBehindNext(s, keys, a.t);
      ComputingCannotStep(s, a.t, n + a.t, a);
    } else {
      assert QueuedBehindNext(s, keys, a.t - n);
      var j := (a.t - n + 1) % n;
      assert ComputingThe(s, j, keys[j]);
      QueuedCannotStep(s, a.t, a);
    }
  }

  lemma ComputingStays(s: State, t: Tid, key: CacheKey, a: Action)
    requires HoldersOk(s) && ComputingThe(s, t, key) && Enabled(s, a) && !(IsLookupAction(a) && a.t == t)
    ensures ComputingThe(Apply(s, a), t, key)
  {
    if IsLookupAction(a) {
      StepShape(s, a);
      HolderShape(s, a);
    }
  }

  lemma QueuedStays(s: State, t: Tid, key: CacheKey, parent: Tid, a: Action)
    requires QueuedFor(s, t, key, parent) && Enabled(s, a) && !(IsLookupAction(a) && a.t == t)
    ensures QueuedFor(Apply(s, a), t, key, parent)
  {
    if IsLookupAction(a) { StepShape(s, a); }
  }

  lemma OthersLeaveCycle(s: State, keys: seq<CacheKey>, a: Action)
    requires HoldersOk(s) && CycleHolds(s, keys) && Enabled(s, a) && (IsLookupAction(a) ==> a.t >= 2 * |keys|)
    ensures CycleHolds(Apply(s, a), keys)
  {
    hide HoldersOk, Enabled, Apply, ComputingThe, QueuedFor, NextKey, IsLookupAction;
    forall i | 0 <= i < |keys| ensures ComputingThe(Apply(s, a), i, keys[i]) && QueuedBehindNext(Apply(s, a), keys, i) {
      assert ComputingThe(s, i, keys[i]) && QueuedBehindNext(s, keys, i);
      ComputingStays(s, i, keys[i], a);
      QueuedStays(s, |keys| + i, NextKey(keys, i), i, a);
    }
  }

  /** Whatever else happens, the cycle stays as it is. */
  lemma CycleHoldsOn(s: State, keys: seq<CacheKey>, a: Action)
    requires HoldersOk(s) && CycleHolds(s, keys)
    ensures CycleHolds(Apply(s, a), keys)
  {
    hide CycleHolds, HoldersOk, Enabled;
    if IsLookupAction(a) && a.t < 2 * |keys| { CycleCannotStep(s, keys, a); }
    if Enabled(s, a) { OthersLeaveCycle(s, keys, a); }
  }

  lemma {:induction false} CycleHoldsThrough(actions: seq<Action>, keys: seq<CacheKey>, more: seq<Action>)
    requires CycleHolds(Run(actions), keys)
    ensures CycleHolds(Run(actions + more), keys)
    decreases |more|
  {
    if more == [] {
      assert actions + more == actions;
    } else {
      var before := actions + more[..|more| - 1];
      CycleHoldsThrough(actions, keys, more[..|more| - 1]);
      assert actions + more == before + [more[|more| - 1]];
      assert (actions + more)[..|actions + more| - 1] == before;
      RunInv(before);
      CycleHoldsOn(Run(before), keys, more[|more| - 1]);
    }
  }

  /** Any cycle of keys whose computations look each other up deadlocks, one key looking
      itself up included: the ranking above cannot be weakened to "no computation looks up
      its own key".  All its lookups are deadlocked, and none ever takes another step,
      whatever other lookups, invalidations and the clock do. */
  lemma NestingCycleDeadlocks(keys: seq<CacheKey>, more: seq<Action>)
    requires keys != [] && Distinct(keys)
    ensures var s := Run(Openings(keys, |keys|) + Nestings(keys, |keys|));
            CycleHolds(s, keys) && forall t :: t in s.lookups ==> Deadlocked(s, t)
    ensures CycleHolds(Run(Openings(keys, |keys|) + Nestings(keys, |keys|) + more), keys)
  {
    CycleNests(keys, |keys|);
    var actions := Openings(keys, |keys|) + Nestings(keys, |keys|);
    var s := Run(actions);
    NestedDeadlocks(s, keys);
    CycleHoldsThrough(actions, keys, more);
  }

  lemma NestedDeadlocks(s: State, keys: seq<CacheKey>)
    requires keys != [] && Nested(s, keys, |keys|)
    ensures CycleHolds(s, keys) && forall t :: t in s.lookups ==> Deadlocked(s, t)
  {
    forall t | t in s.lookups ensures Deadlocked(s, t) {
      if t < |keys| {
        assert ComputingThe(s, t, keys[t]);
      } else {
        assert QueuedBehindNext(s, keys, t - |keys|);
      }
      forall a | Advances(a) ensures !Enabled(s, a) { NestedCannotAdvance(s, keys, a); }
    }
  }
}
