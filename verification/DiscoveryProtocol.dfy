/** Every interleaving of concurrent lookups and invalidations of the discovery
    cache (admin_console/agent_runtime.py, `lookup` and `invalidate`).

    A run is an arbitrary sequence of actions; an action whose turn has not come
    leaves the state as it is.  Each critical section of the source is one
    action, and a computation is a begin/end pair.  An attempt's answer carries
    the position in the log at which the attempt began: the cache never looks
    inside an answer, so this is only a name for it. */
module DiscoveryProtocol {
  import opened Options
  import opened DiscoveryCache

  type Tid = nat

  datatype Answer = Answer(text: string, begun: nat)
  datatype Fault = Fault(text: string, begun: nat)

  /** How a computation ends: it returns, it raises, or it unwinds with an
      exception the cache does not catch (a `BaseException`). */
  datatype Ending = Answered(text: string) | Failed(text: string) | Interrupted

  /** How a lookup ends.  A shared failure carries when the lookup joined the
      flight and the log position at which the failed attempt settled. */
  datatype Outcome =
    | Returned(answer: Answer)
    | RaisedOwn(fault: Fault)
    | RaisedShared(fault: Fault, joinTime: nat, at: int)
    | Unwound

  datatype Phase =
    | Called
    | Waiting(joinedAt: nat, joinTime: nat)
    | Locked(joinedAt: nat, joinTime: nat)
    | Ready(generation: nat, joinTime: nat, checkedAt: nat)
    | Computing(generation: nat, joinTime: nat, checkedAt: nat, begun: nat)
    | Ended(generation: nat, joinTime: nat, checkedAt: nat, begun: nat, ending: Ending)
    | Leaving(outcome: Outcome)
    | Uncached
    | Direct(begun: nat)
    | Done(outcome: Outcome)

  /** `parent` is the lookup whose computation made this one, if any. */
  datatype Lookup = Lookup(key: CacheKey, ttl: real, parent: Option<Tid>, started: nat, phase: Phase)

  /** An attempt that settled: the log positions where its lookup last found no answer and
      where it began, the clock when it settled, and how long its answer is to be held. */
  datatype Trial = Trial(checked: nat, begun: nat, at: real, lifetime: real)

  datatype Event =
    | Moved
    | Began(key: CacheKey)
    | Finished(key: CacheKey, begun: nat, ending: Ending)
    | Settled(key: CacheKey, error: Option<Fault>, attempt: Trial)
    | Invalidated(scope: Option<TargetKey>)

  datatype State = State(
    cache: Contents<Answer, Fault>,
    holders: map<CacheKey, Tid>,
    lookups: map<Tid, Lookup>,
    clock: real,
    log: seq<Event>)

  datatype Action =
    | Call(t: Tid, key: CacheKey, ttl: real, parent: Option<Tid>)
    | Join(t: Tid)
    | Lock(t: Tid)
    | Recheck(t: Tid)
    | Begin(t: Tid)
    | End(t: Tid, ending: Ending)
    | Settle(t: Tid)
    | Release(t: Tid)
    | Invalidate(scope: Option<TargetKey>)
    | Tick(elapsed: real)

  // ---- The steps -------------------------------------------------------------

  predicate Active(s: State, t: Tid) {
    t in s.lookups && !s.lookups[t].phase.Done?
  }

  /** A lookup made by a computation is active while that computation runs it. */
  predicate HasActiveChild(s: State, t: Tid) {
    exists c | c in s.lookups :: Active(s, c) && s.lookups[c].parent == Some(t)
  }

  predicate Runs(p: Phase) {
    p.Computing? || p.Direct?
  }

  predicate HoldsLock(p: Phase) {
    p.Locked? || p.Ready? || p.Computing? || p.Ended? || p.Leaving?
  }

  predicate Enabled(s: State, a: Action) {
    match a
    case Call(t, key, ttl, parent) =>
      t !in s.lookups && (parent.Some? ==> parent.value in s.lookups && Runs(s.lookups[parent.value].phase))
    case Join(t) => t in s.lookups && s.lookups[t].phase.Called?
    case Lock(t) => t in s.lookups && s.lookups[t].phase.Waiting? && s.lookups[t].key !in s.holders
    case Recheck(t) => t in s.lookups && s.lookups[t].phase.Locked? && s.lookups[t].key in s.cache.flights
    case Begin(t) => t in s.lookups && (s.lookups[t].phase.Ready? || s.lookups[t].phase.Uncached?)
    case End(t, ending) => t in s.lookups && Runs(s.lookups[t].phase) && !HasActiveChild(s, t)
    case Settle(t) => t in s.lookups && s.lookups[t].phase.Ended? && s.lookups[t].key in s.cache.flights
    case Release(t) => t in s.lookups && s.lookups[t].phase.Leaving?
    case Invalidate(_) => true
    case Tick(elapsed) => elapsed >= 0.0
  }

  function Put(s: State, t: Tid, phase: Phase): State
    requires t in s.lookups
  {
    s.(lookups := s.lookups[t := s.lookups[t].(phase := phase)])
  }

  function JoinEffect(s: State, t: Tid): State
    requires t in s.lookups
  {
    var (cache, joining) := JoinSection(s.cache, s.lookups[t].key, s.clock);
    Put(s.(cache := cache), t,
        match joining
        case Hit(v) => Done(Returned(v))
        case Joined(n) => Waiting(n, |s.log|))
  }

  function RecheckEffect(s: State, t: Tid): State
    requires t in s.lookups && s.lookups[t].phase.Locked? && s.lookups[t].key in s.cache.flights
  {
    var l := s.lookups[t];
    var (cache, verdict) := RecheckSection(s.cache, l.key, l.phase.joinedAt, s.clock);
    Put(s.(cache := cache), t,
        match verdict
        case Held(v) => Leaving(Returned(v))
        case Share(e) => Leaving(RaisedShared(e, l.phase.joinTime, LastSettled(s.log, l.key)))
        case Attempt(g) => Ready(g, l.phase.joinTime, |s.log|))
  }

  function DirectOutcome(ending: Ending, begun: nat): Outcome {
    match ending
    case Answered(text) => Returned(Answer(text, begun))
    case Failed(text) => RaisedOwn(Fault(text, begun))
    case Interrupted => Unwound
  }

  function SettleEffect(s: State, t: Tid): (State, Event)
    requires t in s.lookups && s.lookups[t].phase.Ended? && s.lookups[t].key in s.cache.flights
  {
    var l := s.lookups[t];
    var p := l.phase;
    var next := Put(s, t, Leaving(DirectOutcome(p.ending, p.begun)));
    var attempt := Trial(p.checkedAt, p.begun, s.clock, l.ttl);
    match p.ending
    case Answered(text) =>
      (next.(cache := AnswerSection(s.cache, l.key, p.generation, Answer(text, p.begun), s.clock + l.ttl)),
       Settled(l.key, None, attempt))
    case Failed(text) =>
      (next.(cache := FailSection(s.cache, l.key, Fault(text, p.begun))),
       Settled(l.key, Some(Fault(text, p.begun)), attempt))
    case Interrupted => (next, Moved)
  }

  function Effect(s: State, a: Action): (State, Event)
    requires Enabled(s, a)
  {
    match a
    case Call(t, key, ttl, parent) =>
      (s.(lookups := s.lookups[t := Lookup(key, ttl, parent, |s.log|, if ttl <= 0.0 then Uncached else Called)]), Moved)
    case Join(t) => (JoinEffect(s, t), Moved)
    case Lock(t) =>
      var l := s.lookups[t];
      (Put(s, t, Locked(l.phase.joinedAt, l.phase.joinTime)).(holders := s.holders[l.key := t]), Moved)
    case Recheck(t) => (RecheckEffect(s, t), Moved)
    case Begin(t) =>
      var l := s.lookups[t];
      (Put(s, t, if l.phase.Uncached? then Direct(|s.log|) else Computing(l.phase.generation, l.phase.joinTime, l.phase.checkedAt, |s.log|)),
       Began(l.key))
    case End(t, ending) =>
      var p := s.lookups[t].phase;
      (Put(s, t, if p.Direct? then Done(DirectOutcome(ending, p.begun)) else Ended(p.generation, p.joinTime, p.checkedAt, p.begun, ending)),
       Finished(s.lookups[t].key, p.begun, ending))
    case Settle(t) => SettleEffect(s, t)
    case Release(t) =>
      var l := s.lookups[t];
      (Put(s, t, Done(l.phase.outcome)).(holders := s.holders - {l.key}), Moved)
    case Invalidate(scope) => (s.(cache := InvalidateSection(s.cache, scope)), Invalidated(scope))
    case Tick(elapsed) => (s.(clock := s.clock + elapsed), Moved)
  }

  function Apply(s: State, a: Action): State {
    if Enabled(s, a) then
      var (next, event) := Effect(s, a);
      next.(log := s.log + [event])
    else s
  }

  function Run(actions: seq<Action>): State {
    if actions == [] then State(Contents(map[], map[]), map[], map[], 0.0, [])
    else Apply(Run(actions[..|actions| - 1]), actions[|actions| - 1])
  }

  // ---- Reading the log ---------------------------------------------------------

  /** The log position of the last attempt of `key` that settled, or -1 when none did. */
  function LastSettled(log: seq<Event>, key: CacheKey): int {
    if log == [] then -1
    else
      var last := |log| - 1;
      if log[last].Settled? && log[last].key == key then last else LastSettled(log[..last], key)
  }

  ghost predicate SettledAt(log: seq<Event>, key: CacheKey, i: int) {
    0 <= i < |log| && log[i].Settled? && log[i].key == key
  }

  ghost predicate InvalidatedAt(log: seq<Event>, target: TargetKey, i: int) {
    0 <= i < |log| && log[i].Invalidated? && Covers(log[i].scope, target)
  }

  ghost predicate BeganAt(log: seq<Event>, key: CacheKey, i: int) {
    0 <= i < |log| && log[i] == Began(key)
  }

  /** An attempt of `key` began at position `begun` and later ended with `ending`. */
  ghost predicate Produced(log: seq<Event>, key: CacheKey, begun: nat, ending: Ending) {
    BeganAt(log, key, begun) && exists j :: begun < j < |log| && log[j] == Finished(key, begun, ending)
  }

  /** No invalidation of `target` at or after log position `from`. */
  ghost predicate QuietSince(log: seq<Event>, target: TargetKey, from: nat) {
    forall i :: from <= i ==> !InvalidatedAt(log, target, i)
  }

  lemma LastSettledAppend(log: seq<Event>, e: Event, key: CacheKey)
    ensures LastSettled(log + [e], key) == if e.Settled? && e.key == key then |log| else LastSettled(log, key)
  {
    assert (log + [e])[..|log|] == log;
  }

  lemma {:induction false} LastSettledIsSettled(log: seq<Event>, key: CacheKey)
    ensures -1 <= LastSettled(log, key) < |log|
    ensures LastSettled(log, key) >= 0 ==> SettledAt(log, key, LastSettled(log, key))
    ensures forall i :: SettledAt(log, key, i) ==> i <= LastSettled(log, key)
  {
    if log != [] {
      var before := log[..|log| - 1];
      LastSettledIsSettled(before, key);
      forall i | SettledAt(log, key, i) ensures i <= LastSettled(log, key) {
        assert i == |log| - 1 || SettledAt(before, key, i);
      }
    }
  }

  // ---- The invariant -------------------------------------------------------------

  ghost predicate EntriesOk(s: State) {
    forall k :: k in s.cache.entries ==>
      && Produced(s.log, k, s.cache.entries[k].value.begun, Answered(s.cache.entries[k].value.text))
      && QuietSince(s.log, k.target, s.cache.entries[k].value.begun)
  }

  /** A flight's error is that of the last attempt to settle, its count how many did. */
  ghost predicate FlightsOk(s: State) {
    && (forall k :: LastError(s.log, k) == if k in s.cache.flights then s.cache.flights[k].error else None)
    && (forall k :: CountSettled(s.log, k) == if k in s.cache.flights then s.cache.flights[k].attempts else 0)
  }

  /** How many attempts of `key` have settled. */
  function CountSettled(log: seq<Event>, key: CacheKey): nat {
    if log == [] then 0
    else
      var last := |log| - 1;
      CountSettled(log[..last], key) + (if log[last].Settled? && log[last].key == key then 1 else 0)
  }

  ghost function LastError(log: seq<Event>, key: CacheKey): Option<Fault> {
    LastSettledIsSettled(log, key);
    if LastSettled(log, key) < 0 then None else log[LastSettled(log, key)].error
  }

  ghost predicate HoldersOk(s: State) {
    && (forall k :: k in s.holders ==>
          s.holders[k] in s.lookups && s.lookups[s.holders[k]].key == k && HoldsLock(s.lookups[s.holders[k]].phase))
    && (forall t :: t in s.lookups && HoldsLock(s.lookups[t].phase) ==>
          s.lookups[t].key in s.holders && s.holders[s.lookups[t].key] == t)
  }

  ghost predicate ParentsOk(s: State) {
    forall t :: Active(s, t) && s.lookups[t].parent.Some? ==>
      s.lookups[t].parent.value in s.lookups && Runs(s.lookups[s.lookups[t].parent.value].phase)
  }

  /** The last attempt to settle ended before `joinTime`, or it did not fail. */
  ghost predicate NotBehindFailure(log: seq<Event>, key: CacheKey, joinTime: nat) {
    LastSettled(log, key) < joinTime || LastError(log, key).None?
  }

  ghost predicate GenerationOk(s: State, key: CacheKey, generation: nat, from: nat) {
    && key in s.cache.flights
    && generation <= s.cache.flights[key].generation
    && (generation == s.cache.flights[key].generation <==> QuietSince(s.log, key.target, from))
  }

  /** Every invalidation of `target` logged before `started` is also before `begun`. */
  ghost predicate BeganAfterInvalidations(log: seq<Event>, target: TargetKey, started: nat, begun: nat) {
    forall i :: InvalidatedAt(log, target, i) && i < started ==> i < begun
  }

  ghost predicate OutcomeOk(s: State, l: Lookup, o: Outcome) {
    match o
    case Returned(a) =>
      && Produced(s.log, l.key, a.begun, Answered(a.text))
      && BeganAfterInvalidations(s.log, l.key.target, l.started, a.begun)
    case RaisedOwn(f) => l.started <= f.begun && Produced(s.log, l.key, f.begun, Failed(f.text))
    case RaisedShared(f, joinTime, at) =>
      l.started <= joinTime <= at && SettledAt(s.log, l.key, at) && s.log[at].error == Some(f) && Produced(s.log, l.key, f.begun, Failed(f.text))
    case Unwound => true
  }

  ghost predicate LookupOk(s: State, l: Lookup) {
    && l.started <= |s.log|
    && match l.phase
       case Called => true
       case Uncached => true
       case Waiting(n, joinTime) => QueuedOk(s, l, n, joinTime)
       case Locked(n, joinTime) => QueuedOk(s, l, n, joinTime)
       case Ready(g, joinTime, checkedAt) =>
         && l.started <= joinTime <= checkedAt <= |s.log|
         && GenerationOk(s, l.key, g, checkedAt)
         && NotBehindFailure(s.log, l.key, joinTime)
       case Computing(g, joinTime, checkedAt, begun) => AttemptOk(s, l, g, joinTime, checkedAt, begun)
       case Ended(g, joinTime, checkedAt, begun, ending) =>
         AttemptOk(s, l, g, joinTime, checkedAt, begun) && Produced(s.log, l.key, begun, ending)
       case Leaving(o) => OutcomeOk(s, l, o)
       case Direct(begun) => l.started <= begun && BeganAt(s.log, l.key, begun)
       case Done(o) => OutcomeOk(s, l, o)
  }

  ghost predicate QueuedOk(s: State, l: Lookup, n: nat, joinTime: nat) {
    && l.started <= joinTime <= |s.log|
    && l.key in s.cache.flights
    && n <= s.cache.flights[l.key].attempts
    && (n == s.cache.flights[l.key].attempts <==> LastSettled(s.log, l.key) < joinTime)
  }

  ghost predicate AttemptOk(s: State, l: Lookup, g: nat, joinTime: nat, checkedAt: nat, begun: nat) {
    && l.started <= joinTime <= checkedAt <= begun
    && BeganAt(s.log, l.key, begun)
    && GenerationOk(s, l.key, g, checkedAt)
    && NotBehindFailure(s.log, l.key, joinTime)
  }

  ghost predicate LookupsOk(s: State) {
    forall t :: t in s.lookups ==> LookupOk(s, s.lookups[t])
  }

  /** Every failure on record was produced by an attempt of its key. */
  ghost predicate FaultsOk(s: State) {
    forall i :: 0 <= i < |s.log| && s.log[i].Settled? && s.log[i].error.Some? ==>
      Produced(s.log, s.log[i].key, s.log[i].error.value.begun, Failed(s.log[i].error.value.text))
  }

  /** The last attempt of `key` to settle succeeded, and its target has not been
      invalidated since its lookup last found no answer. */
  ghost predicate Current(log: seq<Event>, key: CacheKey) {
    LastSettledIsSettled(log, key);
    var i := LastSettled(log, key);
    i >= 0 && log[i].error.None? && QuietSince(log, key.target, log[i].attempt.checked)
  }

  /** When the answer of the last attempt to settle is no longer to be used. */
  ghost function Expiry(log: seq<Event>, key: CacheKey): real
    requires LastSettled(log, key) >= 0
  {
    LastTrial(log, key).at + LastTrial(log, key).lifetime
  }

  ghost function LastTrial(log: seq<Event>, key: CacheKey): Trial
    requires LastSettled(log, key) >= 0
  {
    LastSettledIsSettled(log, key);
    log[LastSettled(log, key)].attempt
  }

  /** What is held for `key` is the answer of its last attempt to settle, while that is
      current; and it is held for as long as its lifetime. */
  ghost predicate HeldOk(s: State, key: CacheKey) {
    && (key in s.cache.entries ==>
          && Current(s.log, key) && s.cache.entries[key].expiresAt == Expiry(s.log, key)
          && s.cache.entries[key].value.begun == LastTrial(s.log, key).begun)
    && (Current(s.log, key) && s.clock < Expiry(s.log, key) ==> key in s.cache.entries)
  }

  predicate Attempts(p: Phase) {
    p.Ready? || p.Computing? || p.Ended?
  }

  ghost predicate ServedOk(s: State) {
    && (forall k :: HeldOk(s, k))
    && (forall t :: t in s.lookups && Attempts(s.lookups[t].phase) ==> s.lookups[t].key !in s.cache.entries)
    && (forall i :: 0 <= i < |s.log| && s.log[i].Settled? ==> s.log[i].attempt.checked <= i)
  }

  ghost predicate Inv(s: State) {
    EntriesOk(s) && FaultsOk(s) && FlightsOk(s) && HoldersOk(s) && ParentsOk(s) && LookupsOk(s) && ServedOk(s)
  }

  /** An action of lookup `t` rewrites that lookup alone, and keeps what names it. */
  ghost predicate OwnStep(s: State, s': State, t: Tid, l: Lookup) {
    && s'.lookups == s.lookups[t := l]
    && (t in s.lookups ==>
          l.key == s.lookups[t].key && l.started == s.lookups[t].started && l.parent == s.lookups[t].parent && l.ttl == s.lookups[t].ttl)
  }

  predicate IsLookupAction(a: Action) {
    !a.Invalidate? && !a.Tick?
  }

  lemma StepShape(s: State, a: Action)
    requires Enabled(s, a) && IsLookupAction(a)
    ensures OwnStep(s, Apply(s, a), a.t, Apply(s, a).lookups[a.t])
    ensures a.Call? <==> a.t !in s.lookups
  {
  }

  lemma HolderShape(s: State, a: Action)
    requires Enabled(s, a) && IsLookupAction(a)
    ensures var s' := Apply(s, a);
            var l := s'.lookups[a.t];
            && s'.holders == (if a.Lock? then s.holders[l.key := a.t] else if a.Release? then s.holders - {l.key} else s.holders)
            && HoldsLock(l.phase) == (a.Lock? || (!a.Call? && !a.Release? && HoldsLock(s.lookups[a.t].phase)))
            && (a.Lock? ==> l.key !in s.holders)
            && (a.Release? ==> HoldsLock(s.lookups[a.t].phase))
  {
  }

  lemma HoldersKept(s: State, a: Action)
    requires HoldersOk(s)
    ensures HoldersOk(Apply(s, a))
  {
    if Enabled(s, a) && IsLookupAction(a) {
      StepShape(s, a);
      HolderShape(s, a);
      var s', l := Apply(s, a), Apply(s, a).lookups[a.t];
      assert forall t :: t in s'.lookups && t != a.t ==> s'.lookups[t] == s.lookups[t];
    }
  }

  lemma RunsShape(s: State, a: Action)
    requires Enabled(s, a) && IsLookupAction(a)
    ensures var l := Apply(s, a).lookups[a.t];
            && (!a.Call? && Runs(s.lookups[a.t].phase) && !Runs(l.phase) ==> !HasActiveChild(s, a.t))
            && (!a.Call? && !l.phase.Done? ==> Active(s, a.t))
            && (a.Call? && l.parent.Some? ==> l.parent.value in s.lookups && Runs(s.lookups[l.parent.value].phase))
  {
  }

  lemma ParentsKept(s: State, a: Action)
    requires ParentsOk(s)
    ensures ParentsOk(Apply(s, a))
  {
    if Enabled(s, a) && IsLookupAction(a) {
      StepShape(s, a);
      RunsShape(s, a);
      var s' := Apply(s, a);
      forall t | Active(s', t) && s'.lookups[t].parent.Some?
        ensures s'.lookups[t].parent.value in s'.lookups && Runs(s'.lookups[s'.lookups[t].parent.value].phase)
      {
        if t != a.t { assert s'.lookups[t] == s.lookups[t] && Active(s, t); }
      }
    }
  }

  lemma ErrorShape(s: State, a: Action, k: CacheKey)
    requires Enabled(s, a)
    ensures var flights, e := Apply(s, a).cache.flights, Effect(s, a).1;
            var before := if k in s.cache.flights then s.cache.flights[k].error else None;
            var after := if k in flights then flights[k].error else None;
            after == if e.Settled? && e.key == k then e.error else before
  {
  }

  lemma CountShape(s: State, a: Action, k: CacheKey)
    requires Enabled(s, a)
    ensures var flights, e := Apply(s, a).cache.flights, Effect(s, a).1;
            var before := if k in s.cache.flights then s.cache.flights[k].attempts else 0;
            var after := if k in flights then flights[k].attempts else 0;
            after == before + if e.Settled? && e.key == k then 1 else 0
  {
  }

  lemma CountAppend(log: seq<Event>, e: Event, key: CacheKey)
    ensures CountSettled(log + [e], key) == CountSettled(log, key) + if e.Settled? && e.key == key then 1 else 0
  {
    assert (log + [e])[..|log|] == log;
  }

  lemma FlightsKept(s: State, a: Action)
    requires FlightsOk(s)
    ensures FlightsOk(Apply(s, a))
  {
    if Enabled(s, a) {
      var s', e := Apply(s, a), Effect(s, a).1;
      forall k ensures CountSettled(s'.log, k) == if k in s'.cache.flights then s'.cache.flights[k].attempts else 0 {
        CountAppend(s.log, e, k);
        CountShape(s, a, k);
      }
      forall k ensures LastError(s'.log, k) == if k in s'.cache.flights then s'.cache.flights[k].error else None {
        LastSettledAppend(s.log, e, k);
        ErrorShape(s, a, k);
        LastSettledIsSettled(s.log, k);
      }
    }
  }

  predicate Settles(e: Event, key: CacheKey) {
    e.Settled? && e.key == key
  }

  predicate Forgets(e: Event, target: TargetKey) {
    e.Invalidated? && Covers(e.scope, target)
  }

  lemma QuietAppend(log: seq<Event>, e: Event, target: TargetKey, from: nat)
    requires QuietSince(log, target, from)
    requires Forgets(e, target) ==> |log| < from
    ensures QuietSince(log + [e], target, from)
  {
    forall i | from <= i ensures !InvalidatedAt(log + [e], target, i) {
      assert !InvalidatedAt(log, target, i);
    }
  }

  /** Once an invalidation is there, it stays. */
  lemma LoudAppend(log: seq<Event>, e: Event, target: TargetKey, from: nat)
    ensures !QuietSince(log, target, from) || (Forgets(e, target) && from <= |log|) ==> !QuietSince(log + [e], target, from)
  {
    if i :| from <= i && InvalidatedAt(log, target, i) {
      assert InvalidatedAt(log + [e], target, i);
    } else if Forgets(e, target) && from <= |log| {
      assert InvalidatedAt(log + [e], target, |log|);
    }
  }

  lemma ProducedAppend(log: seq<Event>, e: Event, key: CacheKey, begun: nat, ending: Ending)
    requires Produced(log, key, begun, ending)
    ensures Produced(log + [e], key, begun, ending)
  {
    var j :| begun < j < |log| && log[j] == Finished(key, begun, ending);
    assert (log + [e])[j] == Finished(key, begun, ending);
  }

  lemma FaultsKept(s: State, a: Action)
    requires FaultsOk(s) && LookupsOk(s)
    ensures FaultsOk(Apply(s, a))
  {
    if Enabled(s, a) {
      var s', e := Apply(s, a), Effect(s, a).1;
      forall i | 0 <= i < |s'.log| && s'.log[i].Settled? && s'.log[i].error.Some?
        ensures Produced(s'.log, s'.log[i].key, s'.log[i].error.value.begun, Failed(s'.log[i].error.value.text))
      {
        var f := s'.log[i].error.value;
        if i == |s.log| { assert LookupOk(s, s.lookups[a.t]); }
        ProducedAppend(s.log, e, s'.log[i].key, f.begun, Failed(f.text));
      }
    }
  }

  /** A step changes a flight's counters only by settling it or by invalidating its target. */
  ghost predicate FlightStep(s: State, s': State, e: Event, k: CacheKey) {
    k in s.cache.flights ==>
      && k in s'.cache.flights
      && s'.cache.flights[k].attempts == s.cache.flights[k].attempts + (if Settles(e, k) then 1 else 0)
      && s'.cache.flights[k].generation == s.cache.flights[k].generation + (if Forgets(e, k.target) then 1 else 0)
  }

  lemma FlightShape(s: State, a: Action, k: CacheKey)
    requires Enabled(s, a)
    ensures FlightStep(s, Apply(s, a), Effect(s, a).1, k)
  {
  }

  /** Where the entries of the next state come from. */
  lemma EntryShape(s: State, a: Action, k: CacheKey)
    requires Enabled(s, a) && k in Apply(s, a).cache.entries
    ensures var s', e := Apply(s, a), Effect(s, a).1;
            || (k in s.cache.entries && s'.cache.entries[k] == s.cache.entries[k] && !Forgets(e, k.target))
            || (&& a.Settle? && Settles(e, k) && e.error.None?
                && s.lookups[a.t].key == k && s.lookups[a.t].phase.generation == s.cache.flights[k].generation
                && s'.cache.entries[k].value.begun == s.lookups[a.t].phase.begun
                && s.lookups[a.t].phase.ending == Answered(s'.cache.entries[k].value.text))
  {
  }

  lemma EntriesKept(s: State, a: Action)
    requires EntriesOk(s) && LookupsOk(s)
    ensures EntriesOk(Apply(s, a))
  {
    if Enabled(s, a) {
      var s', e := Apply(s, a), Effect(s, a).1;
      forall k | k in s'.cache.entries
        ensures Produced(s'.log, k, s'.cache.entries[k].value.begun, Answered(s'.cache.entries[k].value.text))
        ensures QuietSince(s'.log, k.target, s'.cache.entries[k].value.begun)
      {
        EntryShape(s, a, k);
        if a.Settle? { assert LookupOk(s, s.lookups[a.t]); }
        var v := s'.cache.entries[k].value;
        QuietAppend(s.log, e, k.target, v.begun);
        ProducedAppend(s.log, e, k, v.begun, Answered(v.text));
      }
    }
  }

  lemma OutcomeFrame(s: State, s': State, e: Event, l: Lookup, o: Outcome)
    requires OutcomeOk(s, l, o) && l.started <= |s.log| && s'.log == s.log + [e]
    ensures OutcomeOk(s', l, o)
  {
    if o.Returned? {
      forall i | InvalidatedAt(s'.log, l.key.target, i) && i < l.started ensures i < o.answer.begun {
        assert InvalidatedAt(s.log, l.key.target, i);
      }
      ProducedAppend(s.log, e, l.key, o.answer.begun, Answered(o.answer.text));
    } else if !o.Unwound? {
      ProducedAppend(s.log, e, l.key, o.fault.begun, Failed(o.fault.text));
    }
  }

  /** A lookup that does not itself step is still accounted for. */
  lemma LookupFrame(s: State, s': State, e: Event, l: Lookup)
    requires LookupOk(s, l) && s'.log == s.log + [e] && FlightStep(s, s', e, l.key)
    requires Settles(e, l.key) ==> !(l.phase.Ready? || l.phase.Computing? || l.phase.Ended?)
    ensures LookupOk(s', l)
  {
    LastSettledAppend(s.log, e, l.key);
    LastSettledIsSettled(s.log, l.key);
    if l.phase.Ended? { ProducedAppend(s.log, e, l.key, l.phase.begun, l.phase.ending); }
    if l.phase.Leaving? || l.phase.Done? {
      OutcomeFrame(s, s', e, l, l.phase.outcome);
    } else if (l.phase.Ready? || l.phase.Computing? || l.phase.Ended?) && l.phase.generation == s'.cache.flights[l.key].generation {
      QuietAppend(s.log, e, l.key.target, l.phase.checkedAt);
    }
    if Attempts(l.phase) { LoudAppend(s.log, e, l.key.target, l.phase.checkedAt); }
  }

  /** A held answer is newer than every invalidation of its target. */
  lemma HeldAnswerOk(s: State, l: Lookup)
    requires EntriesOk(s) && l.key in s.cache.entries
    ensures OutcomeOk(s, l, Returned(s.cache.entries[l.key].value))
  {
    var a := s.cache.entries[l.key].value;
    forall i | InvalidatedAt(s.log, l.key.target, i) && i < l.started ensures i < a.begun {
      assert a.begun <= i ==> !InvalidatedAt(s.log, l.key.target, i);
    }
  }

  /** What an attempt of the lookup itself produced is newer than its start. */
  lemma OwnOutcomeOk(s: State, l: Lookup, ending: Ending, begun: nat)
    requires l.started <= begun && Produced(s.log, l.key, begun, ending)
    ensures OutcomeOk(s, l, DirectOutcome(ending, begun))
  {
  }

  lemma JoinKept(s: State, t: Tid)
    requires Inv(s) && Enabled(s, Join(t))
    ensures LookupOk(Apply(s, Join(t)), Apply(s, Join(t)).lookups[t])
  {
    var s', l := Apply(s, Join(t)), s.lookups[t];
    LastSettledAppend(s.log, Moved, l.key);
    LastSettledIsSettled(s.log, l.key);
    if Fresh(s.cache, l.key, s.clock).Some? {
      HeldAnswerOk(s, l);
      OutcomeFrame(s, s', Moved, s'.lookups[t], Returned(s.cache.entries[l.key].value));
    }
  }

  lemma RecheckKept(s: State, t: Tid)
    requires Inv(s) && Enabled(s, Recheck(t))
    ensures LookupOk(Apply(s, Recheck(t)), Apply(s, Recheck(t)).lookups[t])
  {
    var s', l := Apply(s, Recheck(t)), s.lookups[t];
    assert LookupOk(s, l);
    LastSettledAppend(s.log, Moved, l.key);
    LastSettledIsSettled(s.log, l.key);
    if Fresh(s.cache, l.key, s.clock).Some? {
      HeldAnswerOk(s, l);
      OutcomeFrame(s, s', Moved, s'.lookups[t], Returned(s.cache.entries[l.key].value));
    } else if s'.lookups[t].phase.Leaving? {
      OutcomeFrame(s, s', Moved, s'.lookups[t], s'.lookups[t].phase.outcome);
    }
  }

  lemma BeginKept(s: State, t: Tid)
    requires Inv(s) && Enabled(s, Begin(t))
    ensures LookupOk(Apply(s, Begin(t)), Apply(s, Begin(t)).lookups[t])
  {
    var s', l := Apply(s, Begin(t)), s.lookups[t];
    assert LookupOk(s, l);
    LastSettledAppend(s.log, Began(l.key), l.key);
    LastSettledIsSettled(s.log, l.key);
    if l.phase.Ready? && l.phase.generation == s.cache.flights[l.key].generation {
      QuietAppend(s.log, Began(l.key), l.key.target, l.phase.checkedAt);
    }
    if l.phase.Ready? { LoudAppend(s.log, Began(l.key), l.key.target, l.phase.checkedAt); }
  }

  lemma EndKept(s: State, t: Tid, ending: Ending)
    requires Inv(s) && Enabled(s, End(t, ending))
    ensures LookupOk(Apply(s, End(t, ending)), Apply(s, End(t, ending)).lookups[t])
  {
    var s', l := Apply(s, End(t, ending)), s.lookups[t];
    assert LookupOk(s, l);
    assert s'.log[|s.log|] == Finished(l.key, l.phase.begun, ending);
    assert Produced(s'.log, l.key, l.phase.begun, ending);
    if l.phase.Direct? {
      OwnOutcomeOk(s', s'.lookups[t], ending, l.phase.begun);
    } else {
      LookupFrame(s, s', Finished(l.key, l.phase.begun, ending), l);
    }
  }

  lemma SettleKept(s: State, t: Tid)
    requires Inv(s) && Enabled(s, Settle(t))
    ensures LookupOk(Apply(s, Settle(t)), Apply(s, Settle(t)).lookups[t])
  {
    var s', l := Apply(s, Settle(t)), s.lookups[t];
    assert LookupOk(s, l);
    ProducedAppend(s.log, Effect(s, Settle(t)).1, l.key, l.phase.begun, l.phase.ending);
    OwnOutcomeOk(s', s'.lookups[t], l.phase.ending, l.phase.begun);
  }

  lemma OwnKept(s: State, a: Action)
    requires Inv(s) && Enabled(s, a) && IsLookupAction(a)
    ensures LookupOk(Apply(s, a), Apply(s, a).lookups[a.t])
  {
    match a
    case Call(_, _, _, _) =>
    case Join(t) => JoinKept(s, t);
    case Lock(t) => LookupFrame(s, Apply(s, a), Moved, s.lookups[t]);
    case Recheck(t) => RecheckKept(s, t);
    case Begin(t) => BeginKept(s, t);
    case End(t, ending) => EndKept(s, t, ending);
    case Settle(t) => SettleKept(s, t);
    case Release(t) => LookupFrame(s, Apply(s, a), Moved, s.lookups[t]);
  }

  /** Only the lookup that holds a flight's lock can settle the flight. */
  lemma SettlesItsOwn(s: State, a: Action, l: Lookup)
    requires Enabled(s, a) && Settles(Effect(s, a).1, l.key)
    ensures a.Settle? && s.lookups[a.t].key == l.key && s.lookups[a.t].phase.Ended?
  {
  }

  /** A lookup other than the one that steps. */
  lemma OtherKept(s: State, a: Action, t: Tid)
    requires Inv(s) && Enabled(s, a) && t in Apply(s, a).lookups && !(IsLookupAction(a) && t == a.t)
    ensures LookupOk(Apply(s, a), Apply(s, a).lookups[t])
  {
    var s', e := Apply(s, a), Effect(s, a).1;
    if IsLookupAction(a) { StepShape(s, a); }
    assert s'.lookups[t] == s.lookups[t];
    FlightShape(s, a, s.lookups[t].key);
    if Settles(e, s.lookups[t].key) { SettlesItsOwn(s, a, s.lookups[t]); }
    LookupFrame(s, s', e, s.lookups[t]);
  }

  lemma LookupsKept(s: State, a: Action)
    requires Inv(s)
    ensures LookupsOk(Apply(s, a))
  {
    if Enabled(s, a) {
      forall t | t in Apply(s, a).lookups ensures LookupOk(Apply(s, a), Apply(s, a).lookups[t]) {
        if IsLookupAction(a) && t == a.t {
          OwnKept(s, a);
        } else {
          OtherKept(s, a, t);
        }
      }
    }
  }

  // ---- What is held, exactly --------------------------------------------------------

  /** The settle that stores an answer for `k`. */
  predicate Stores(s: State, a: Action, k: CacheKey)
    requires Enabled(s, a)
  {
    && a.Settle? && s.lookups[a.t].key == k && s.lookups[a.t].phase.ending.Answered?
    && s.lookups[a.t].phase.generation == s.cache.flights[k].generation
  }

  /** The look that drops an expired entry of `k`. */
  predicate Drops(s: State, a: Action, k: CacheKey)
    requires Enabled(s, a)
  {
    (a.Join? || a.Recheck?) && s.lookups[a.t].key == k && k in s.cache.entries && s.cache.entries[k].expiresAt <= s.clock
  }

  lemma EntryStep(s: State, a: Action, k: CacheKey)
    requires Enabled(s, a)
    ensures var s', e := Apply(s, a), Effect(s, a).1;
            && (k in s'.cache.entries <==> Stores(s, a, k) || (k in s.cache.entries && !Forgets(e, k.target) && !Drops(s, a, k)))
            && (Stores(s, a, k) ==>
                  && s'.cache.entries[k].value.begun == s.lookups[a.t].phase.begun
                  && s'.cache.entries[k].expiresAt == s.clock + s.lookups[a.t].ttl)
            && (k in s'.cache.entries && !Stores(s, a, k) ==> s'.cache.entries[k] == s.cache.entries[k])
            && s.clock <= s'.clock
  {
  }

  /** What a settle logs. */
  lemma SettleShape(s: State, a: Action, k: CacheKey)
    requires Enabled(s, a)
    ensures var e := Effect(s, a).1;
            && (Settles(e, k) <==> a.Settle? && s.lookups[a.t].key == k && !s.lookups[a.t].phase.ending.Interrupted?)
            && (Settles(e, k) ==>
                  && e.attempt == Trial(s.lookups[a.t].phase.checkedAt, s.lookups[a.t].phase.begun, s.clock, s.lookups[a.t].ttl)
                  && (e.error.None? <==> s.lookups[a.t].phase.ending.Answered?) && !Forgets(e, k.target))
            && (Stores(s, a, k) ==> Settles(e, k))
  {
  }

  lemma CurrentAppend(log: seq<Event>, e: Event, k: CacheKey)
    requires forall i :: 0 <= i < |log| && log[i].Settled? ==> log[i].attempt.checked <= i
    ensures !Settles(e, k) ==>
      && LastSettled(log + [e], k) == LastSettled(log, k)
      && (Current(log + [e], k) <==> Current(log, k) && !Forgets(e, k.target))
      && (LastSettled(log, k) >= 0 ==> Expiry(log + [e], k) == Expiry(log, k))
  {
    LastSettledAppend(log, e, k);
    LastSettledIsSettled(log, k);
    LastSettledIsSettled(log + [e], k);
    var i := LastSettled(log, k);
    if !Settles(e, k) && i >= 0 {
      assert (log + [e])[i] == log[i];
      LoudAppend(log, e, k.target, log[i].attempt.checked);
      if Current(log, k) && !Forgets(e, k.target) { QuietAppend(log, e, k.target, log[i].attempt.checked); }
    }
  }

  lemma CurrentAfterSettle(log: seq<Event>, e: Event, k: CacheKey)
    requires Settles(e, k) && !Forgets(e, k.target)
    ensures LastSettled(log + [e], k) == |log| && (log + [e])[|log|] == e
    ensures Current(log + [e], k) <==> e.error.None? && QuietSince(log, k.target, e.attempt.checked)
    ensures Expiry(log + [e], k) == e.attempt.at + e.attempt.lifetime
  {
    LastSettledAppend(log, e, k);
    LastSettledIsSettled(log + [e], k);
    LoudAppend(log, e, k.target, e.attempt.checked);
    if QuietSince(log, k.target, e.attempt.checked) { QuietAppend(log, e, k.target, e.attempt.checked); }
  }

  lemma HeldKept(s: State, a: Action, k: CacheKey)
    requires Inv(s) && Enabled(s, a)
    ensures HeldOk(Apply(s, a), k)
  {
    var s', e := Apply(s, a), Effect(s, a).1;
    EntryStep(s, a, k);
    SettleShape(s, a, k);
    assert HeldOk(s, k);
    if Settles(e, k) {
      assert LookupOk(s, s.lookups[a.t]) && s.lookups[a.t].key !in s.cache.entries;
      hide Apply, Effect, Enabled;
      CurrentAfterSettle(s.log, e, k);
    } else {
      hide Apply, Effect, Enabled, LookupsOk, EntriesOk, FaultsOk, FlightsOk, HoldersOk, ParentsOk;
      CurrentAppend(s.log, e, k);
      LastSettledIsSettled(s.log, k);
      LastSettledIsSettled(s'.log, k);
    }
  }

  /** Nothing is held for a key while a lookup that found nothing makes its attempt. */
  lemma NothingHeldKept(s: State, a: Action, t: Tid)
    requires Inv(s) && Enabled(s, a) && t in Apply(s, a).lookups && Attempts(Apply(s, a).lookups[t].phase)
    ensures Apply(s, a).lookups[t].key !in Apply(s, a).cache.entries
  {
    var s' := Apply(s, a);
    var k := s'.lookups[t].key;
    EntryStep(s, a, k);
    if IsLookupAction(a) { StepShape(s, a); }
    if IsLookupAction(a) && t == a.t {
      OwnAttempt(s, a);
    } else {
      assert s'.lookups[t] == s.lookups[t];
      hide Apply, Effect, Enabled, LookupsOk, EntriesOk, FaultsOk, FlightsOk, ParentsOk;
    }
  }

  /** A lookup on its way to an attempt has found nothing, and stores nothing before its end. */
  lemma OwnAttempt(s: State, a: Action)
    requires Enabled(s, a) && IsLookupAction(a) && Attempts(Apply(s, a).lookups[a.t].phase)
    ensures !a.Settle? && !a.Call?
    ensures a.Recheck? ==> Fresh(s.cache, s.lookups[a.t].key, s.clock).None?
    ensures !a.Recheck? ==> Attempts(s.lookups[a.t].phase)
  {
  }

  lemma ServedKept(s: State, a: Action)
    requires Inv(s)
    ensures ServedOk(Apply(s, a))
  {
    if Enabled(s, a) {
      var s', e := Apply(s, a), Effect(s, a).1;
      forall k ensures HeldOk(s', k) { HeldKept(s, a, k); }
      forall t | t in s'.lookups && Attempts(s'.lookups[t].phase) ensures s'.lookups[t].key !in s'.cache.entries {
        NothingHeldKept(s, a, t);
      }
      CheckedKept(s, a);
    }
  }

  lemma CheckedKept(s: State, a: Action)
    requires Inv(s) && Enabled(s, a)
    ensures forall i :: 0 <= i < |Apply(s, a).log| && Apply(s, a).log[i].Settled? ==> Apply(s, a).log[i].attempt.checked <= i
  {
    var e := Effect(s, a).1;
    if e.Settled? {
      SettleShape(s, a, e.key);
      assert LookupOk(s, s.lookups[a.t]);
    }
  }

  lemma {:induction false} RunInv(actions: seq<Action>)
    ensures Inv(Run(actions))
  {
    if actions != [] {
      var s, a := Run(actions[..|actions| - 1]), actions[|actions| - 1];
      RunInv(actions[..|actions| - 1]);
      EntriesKept(s, a);
      FaultsKept(s, a);
      FlightsKept(s, a);
      HoldersKept(s, a);
      ParentsKept(s, a);
      LookupsKept(s, a);
      ServedKept(s, a);
    }
  }
}
