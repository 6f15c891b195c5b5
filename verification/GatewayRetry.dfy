/** `exec_on_gateway` over the shared discovery cache (admin_console/agent_runtime.py).

    Any number of calls run concurrently with each other and with every other
    user of the cache.  A call's lookups are lookups of DiscoveryProtocol and its
    invalidations are logged there too, so positions in the cache's log order a
    failed run against the discovery that replaces its endpoint. */
module GatewayRetry {
  import opened Options
  import opened DiscoveryCache
  import P = DiscoveryProtocol
  import DiscoveryTheorems

  type Cid = nat

  datatype Failure = NoFailure | Preparation

  datatype KubeResult = KubeResult(returncode: int, timedOut: bool, failure: Failure, stdout: string)

  /** Whether a failed kubectl call was answered by the cluster. */
  predicate AnsweredByCluster(r: KubeResult) {
    !r.timedOut && r.failure.NoFailure?
  }

  predicate WantsRediscovery(r: KubeResult) {
    r.returncode != 0 && AnsweredByCluster(r)
  }

  /** One run of the caller's command: on which endpoint (the answer of a
      discovery), with what result, and the length of the cache's log when it ended. */
  datatype Ran = Ran(endpoint: P.Answer, result: KubeResult, at: nat)

  /** `endpoint` and `result` are the local variables of the source. */
  datatype Phase =
    | Looking(t: P.Tid)
    | Running(endpoint: P.Answer)
    | Judging(endpoint: P.Answer, result: KubeResult)
    | Forgotten(endpoint: P.Answer, result: KubeResult, at: nat)
    | Rediscovering(endpoint: P.Answer, result: KubeResult, at: nat, t: P.Tid)
    | Rerunning(endpoint: P.Answer)
    | Evicting(after: Option<(P.Answer, KubeResult)>)   // a discovery failed; `_discover` evicts the target
    | Returned(endpoint: P.Answer, result: KubeResult)
    | Raised

  /** `looks` are the call's discoveries and `runs` its runs, each in order. */
  datatype Call = Call(key: CacheKey, ttl: real, phase: Phase, looks: seq<P.Tid>, runs: seq<Ran>)

  /** `history` is every step taken on the cache so far, by anyone. */
  datatype State = State(history: seq<P.Action>, calls: map<Cid, Call>)

  datatype Action =
    | Cache(step: P.Action)
    | Start(c: Cid, key: CacheKey, ttl: real, t: P.Tid)
    | Found(c: Cid)
    | Exec(c: Cid, result: KubeResult)
    | Judge(c: Cid)
    | Look(c: Cid, t: P.Tid)
    | Evict(c: Cid)

  /** The runtime's own error class, as `except AgentRuntimeError` tells it apart. */
  predicate IsAgentRuntimeError(f: P.Fault) {
    "AgentRuntimeError" <= f.text
  }

  function CacheOf(s: State): P.State {
    P.Run(s.history)
  }

  predicate LookupDone(s: State, t: P.Tid) {
    t in CacheOf(s).lookups && CacheOf(s).lookups[t].phase.Done?
  }

  /** What the first discovery's outcome leads to. */
  function AfterLooking(o: P.Outcome): Phase {
    match o
    case Returned(a) => Running(a)
    case RaisedOwn(f) => if IsAgentRuntimeError(f) then Evicting(None) else Raised
    case RaisedShared(f, _, _) => if IsAgentRuntimeError(f) then Evicting(None) else Raised
    case Unwound => Raised
  }

  /** What the second discovery's outcome leads to. */
  function AfterRediscovering(o: P.Outcome, endpoint: P.Answer, result: KubeResult): Phase {
    match o
    case Returned(a) => if a.text != endpoint.text then Rerunning(a) else Returned(endpoint, result)
    case RaisedOwn(f) => if IsAgentRuntimeError(f) then Evicting(Some((endpoint, result))) else Raised
    case RaisedShared(f, _, _) => if IsAgentRuntimeError(f) then Evicting(Some((endpoint, result))) else Raised
    case Unwound => Raised
  }

  predicate Enabled(s: State, a: Action) {
    match a
    case Cache(_) => true
    case Start(c, _, _, t) => c !in s.calls && t !in CacheOf(s).lookups
    case Found(c) => c in s.calls && (s.calls[c].phase.Looking? || s.calls[c].phase.Rediscovering?) && LookupDone(s, s.calls[c].phase.t)
    case Exec(c, _) => c in s.calls && (s.calls[c].phase.Running? || s.calls[c].phase.Rerunning?)
    case Judge(c) => c in s.calls && s.calls[c].phase.Judging?
    case Look(c, t) => c in s.calls && s.calls[c].phase.Forgotten? && t !in CacheOf(s).lookups
    case Evict(c) => c in s.calls && s.calls[c].phase.Evicting?
  }

  /** The cache steps an action takes. */
  function CacheSteps(s: State, a: Action): seq<P.Action>
    requires Enabled(s, a)
  {
    match a
    case Cache(step) => [step]
    case Start(_, key, ttl, t) => [P.Action.Call(t, key, ttl, None)]
    case Judge(c) => if WantsRediscovery(s.calls[c].phase.result) then [P.Invalidate(Some(s.calls[c].key.target))] else []
    case Look(c, t) => [P.Action.Call(t, s.calls[c].key, s.calls[c].ttl, None)]
    case Evict(c) => [P.Invalidate(Some(s.calls[c].key.target))]
    case _ => []
  }

  function NextPhase(s: State, a: Action): Phase
    requires Enabled(s, a) && !a.Cache? && !a.Start?
  {
    var now := |CacheOf(s).log|;
    var p := s.calls[a.c].phase;
    match a
    case Found(_) =>
      var o := CacheOf(s).lookups[p.t].phase.outcome;
      if p.Looking? then AfterLooking(o) else AfterRediscovering(o, p.endpoint, p.result)
    case Exec(_, result) => if p.Running? then Judging(p.endpoint, result) else Returned(p.endpoint, result)
    case Judge(_) => if WantsRediscovery(p.result) then Forgotten(p.endpoint, p.result, now) else Returned(p.endpoint, p.result)
    case Look(_, t) => Rediscovering(p.endpoint, p.result, p.at, t)
    case Evict(_) => if p.after.Some? then Returned(p.after.value.0, p.after.value.1) else Raised
  }

  function NextCall(s: State, a: Action): Call
    requires Enabled(s, a) && !a.Cache? && !a.Start?
  {
    var call := s.calls[a.c];
    var runs := if a.Exec? then call.runs + [Ran(call.phase.endpoint, a.result, |CacheOf(s).log|)] else call.runs;
    var looks := if a.Look? then call.looks + [a.t] else call.looks;
    call.(phase := NextPhase(s, a), looks := looks, runs := runs)
  }

  function Apply(s: State, a: Action): State {
    if !Enabled(s, a) then s
    else
      State(
        s.history + CacheSteps(s, a),
        if a.Cache? then s.calls
        else if a.Start? then s.calls[a.c := Call(a.key, a.ttl, Looking(a.t), [a.t], [])]
        else s.calls[a.c := NextCall(s, a)])
  }

  function Run(actions: seq<Action>): State {
    if actions == [] then State([], map[])
    else Apply(Run(actions[..|actions| - 1]), actions[|actions| - 1])
  }

  // ---- The cache only grows --------------------------------------------------------

  /** `after` is a later state of the same cache. */
  ghost predicate Later(before: P.State, after: P.State) {
    && before.log <= after.log
    && forall t :: t in before.lookups ==>
         && t in after.lookups && after.lookups[t].key == before.lookups[t].key && after.lookups[t].started == before.lookups[t].started
         && (before.lookups[t].phase.Done? ==> after.lookups[t] == before.lookups[t])
  }

  lemma OneStepLater(s: P.State, a: P.Action)
    ensures Later(s, P.Apply(s, a))
  {
    if P.Enabled(s, a) && P.IsLookupAction(a) { P.StepShape(s, a); }
  }

  lemma RunOneMore(history: seq<P.Action>, a: P.Action)
    ensures P.Run(history + [a]) == P.Apply(P.Run(history), a)
  {
    assert (history + [a])[..|history|] == history;
  }

  lemma CacheGrows(s: State, a: Action)
    ensures Later(CacheOf(s), CacheOf(Apply(s, a)))
  {
    if Enabled(s, a) {
      var steps := CacheSteps(s, a);
      if steps == [] {
        assert s.history + steps == s.history;
      } else {
        RunOneMore(s.history, steps[0]);
        OneStepLater(CacheOf(s), steps[0]);
      }
    }
  }

  // ---- The invariant ----------------------------------------------------------------

  /** A failure that may mean the pod was replaced: kubectl exited with an error, did not time
      out and had been prepared. */
  predicate Retriable(r: KubeResult) {
    r.returncode != 0 && !r.timedOut && r.failure == NoFailure
  }

  /** The one run so far is of `endpoint`, which the first discovery gave. */
  ghost predicate RanOnce(cache: P.State, call: Call, endpoint: P.Answer, result: KubeResult) {
    && |call.runs| == 1 && call.runs[0].endpoint == endpoint && call.runs[0].result == result
    && call.looks != [] && Gave(cache, call.looks[0], endpoint)
  }

  ghost predicate Asks(cache: P.State, key: CacheKey, t: P.Tid) {
    t in cache.lookups && cache.lookups[t].key == key
  }

  /** Discovery `t` ended with this answer. */
  ghost predicate Gave(cache: P.State, t: P.Tid, a: P.Answer) {
    t in cache.lookups && cache.lookups[t].phase == P.Done(P.Returned(a))
  }

  /** Discovery `t` ended with an error, one of the runtime's own or another. */
  ghost predicate Failed(cache: P.State, t: P.Tid, own: bool) {
    && t in cache.lookups && cache.lookups[t].phase.Done?
    && match cache.lookups[t].phase.outcome
       case Returned(_) => false
       case RaisedOwn(f) => IsAgentRuntimeError(f) == own
       case RaisedShared(f, _, _) => IsAgentRuntimeError(f) == own
       case Unwound => !own
  }

  /** Once discovery `t` had started, the call's target was invalidated. */
  ghost predicate Evicted(cache: P.State, key: CacheKey, t: P.Tid) {
    t in cache.lookups && exists i :: cache.lookups[t].started <= i && P.InvalidatedAt(cache.log, key.target, i)
  }

  /** `a` is what a discovery of the call's own question produced. */
  ghost predicate Discovered(cache: P.State, key: CacheKey, a: P.Answer) {
    P.Produced(cache.log, key, a.begun, P.Answered(a.text))
  }

  /** Discovery `t` gave this endpoint, whenever it was found. */
  ghost predicate SameEndpoint(cache: P.State, t: P.Tid, endpoint: P.Answer) {
    exists a :: Gave(cache, t, a) && a.text == endpoint.text
  }

  /** A call that has returned, exactly.  It ran on what its first discovery gave.  It
      discovered again if and only if that run failed in a way that may mean a moved pod, and
      ran again if and only if the second discovery gave another endpoint, on that endpoint,
      whose discovery began after the failure.  A second discovery that failed evicted the
      target. */
  ghost predicate OneCall(cache: P.State, call: Call) {
    var looks, runs := call.looks, call.runs;
    && 1 <= |runs| <= |looks| <= 2
    && (forall i :: 0 <= i < |runs| ==> Discovered(cache, call.key, runs[i].endpoint) && Gave(cache, looks[i], runs[i].endpoint))
    && (|looks| == 2 <==> Retriable(runs[0].result))
    && (|looks| == 2 && |runs| == 1 ==>
          || SameEndpoint(cache, looks[1], runs[0].endpoint)
          || (Failed(cache, looks[1], true) && Evicted(cache, call.key, looks[1])))
    && (|runs| == 2 ==> runs[1].endpoint.text != runs[0].endpoint.text && runs[0].at <= runs[1].endpoint.begun)
  }

  ghost predicate CallOk(cache: P.State, call: Call) {
    && (forall i :: 0 <= i < |call.runs| ==> Discovered(cache, call.key, call.runs[i].endpoint))
    && match call.phase
       case Looking(t) => Asks(cache, call.key, t) && call.looks == [t] && call.runs == []
       case Running(a) => Discovered(cache, call.key, a) && |call.looks| == 1 && Gave(cache, call.looks[0], a) && call.runs == []
       case Judging(a, r) => RanOnce(cache, call, a, r) && |call.looks| == 1 && call.runs[0].at <= |cache.log|
       case Forgotten(a, r, at) =>
         && RanOnce(cache, call, a, r) && |call.looks| == 1 && Retriable(r)
         && call.runs[0].at <= at && P.InvalidatedAt(cache.log, call.key.target, at)
       case Rediscovering(a, r, at, t) =>
         && RanOnce(cache, call, a, r) && |call.looks| == 2 && call.looks[1] == t && Retriable(r)
         && call.runs[0].at <= at && P.InvalidatedAt(cache.log, call.key.target, at)
         && Asks(cache, call.key, t) && at < cache.lookups[t].started
       case Rerunning(a) =>
         && |call.runs| == 1 && RanOnce(cache, call, call.runs[0].endpoint, call.runs[0].result) && Retriable(call.runs[0].result)
         && Discovered(cache, call.key, a) && |call.looks| == 2 && Gave(cache, call.looks[1], a)
         && a.text != call.runs[0].endpoint.text && call.runs[0].at <= a.begun
       case Evicting(None) => |call.looks| == 1 && call.runs == [] && Failed(cache, call.looks[0], true)
       case Evicting(Some((a, r))) =>
         RanOnce(cache, call, a, r) && |call.looks| == 2 && Retriable(r) && Failed(cache, call.looks[1], true)
       case Returned(a, r) =>
         OneCall(cache, call) && call.runs[|call.runs| - 1].endpoint == a && call.runs[|call.runs| - 1].result == r
       case Raised => RaisedOk(cache, call)
  }

  /** A call that raised: its first discovery failed, or its second with an error that is not
      the runtime's own. */
  ghost predicate RaisedOk(cache: P.State, call: Call) {
    || (|call.looks| == 1 && call.runs == [] &&
          (Failed(cache, call.looks[0], false) || (Failed(cache, call.looks[0], true) && Evicted(cache, call.key, call.looks[0]))))
    || (|call.looks| == 2 && |call.runs| == 1 && Failed(cache, call.looks[1], false))
  }

  lemma DiscoveredLater(before: P.State, after: P.State, key: CacheKey, a: P.Answer)
    requires Later(before, after) && Discovered(before, key, a)
    ensures Discovered(after, key, a)
  {
    var j :| a.begun < j < |before.log| && before.log[j] == P.Finished(key, a.begun, P.Answered(a.text));
    assert after.log[j] == before.log[j];
  }

  /** What a finished discovery did stays known. */
  lemma FinishedLater(before: P.State, after: P.State, key: CacheKey, t: P.Tid)
    requires Later(before, after)
    ensures forall a :: Gave(before, t, a) ==> Gave(after, t, a)
    ensures forall own :: Failed(before, t, own) ==> Failed(after, t, own)
    ensures Evicted(before, key, t) ==> Evicted(after, key, t)
    ensures forall e :: SameEndpoint(before, t, e) ==> SameEndpoint(after, t, e)
  {
    if Evicted(before, key, t) {
      var i :| before.lookups[t].started <= i && P.InvalidatedAt(before.log, key.target, i);
      assert P.InvalidatedAt(after.log, key.target, i);
    }
    forall e | SameEndpoint(before, t, e) ensures SameEndpoint(after, t, e) {
      var a :| Gave(before, t, a) && a.text == e.text;
      assert Gave(after, t, a);
    }
  }

  lemma CallFrame(before: P.State, after: P.State, call: Call)
    requires Later(before, after) && CallOk(before, call)
    ensures CallOk(after, call)
  {
    forall i | 0 <= i < |call.runs| ensures Discovered(after, call.key, call.runs[i].endpoint) {
      DiscoveredLater(before, after, call.key, call.runs[i].endpoint);
    }
    if call.phase.Running? || call.phase.Rerunning? {
      DiscoveredLater(before, after, call.key, call.phase.endpoint);
    }
    if |call.looks| > 0 { FinishedLater(before, after, call.key, call.looks[0]); }
    if |call.looks| > 1 { FinishedLater(before, after, call.key, call.looks[1]); }
    hide Gave, Failed, Evicted, SameEndpoint, Discovered;
  }

  ghost predicate Inv(s: State) {
    forall c :: c in s.calls ==> CallOk(CacheOf(s), s.calls[c])
  }

  /** The heart of the retry: what the second discovery returns was computed after
      the invalidation that followed the failed run. */
  lemma RediscoveryIsFresh(history: seq<P.Action>, call: Call)
    requires CallOk(P.Run(history), call) && (call.phase.Looking? || call.phase.Rediscovering?)
    requires P.Run(history).lookups[call.phase.t].phase.Done?
    requires P.Run(history).lookups[call.phase.t].phase.outcome.Returned?
    ensures var a := P.Run(history).lookups[call.phase.t].phase.outcome.answer;
            && Discovered(P.Run(history), call.key, a)
            && (call.phase.Rediscovering? ==> call.phase.at < a.begun)
  {
    DiscoveryTheorems.Freshness(history, call.phase.t);
  }

  /** Each step of a call, on whatever cache there is then. */
  lemma FoundOk(cache: P.State, call: Call)
    requires CallOk(cache, call) && (call.phase.Looking? || call.phase.Rediscovering?)
    requires cache.lookups[call.phase.t].phase.Done?
    requires cache.lookups[call.phase.t].phase.outcome.Returned? ==>
      var a := cache.lookups[call.phase.t].phase.outcome.answer;
      Discovered(cache, call.key, a) && (call.phase.Rediscovering? ==> call.phase.at < a.begun)
    ensures var o := cache.lookups[call.phase.t].phase.outcome;
            var p := call.phase;
            CallOk(cache, call.(phase := if p.Looking? then AfterLooking(o) else AfterRediscovering(o, p.endpoint, p.result)))
  {
    hide Discovered, P.InvalidatedAt, Evicted;
    var o := cache.lookups[call.phase.t].phase.outcome;
    if o.Returned? { assert Gave(cache, call.phase.t, o.answer); }
  }

  lemma RanOk(cache: P.State, call: Call, result: KubeResult)
    requires CallOk(cache, call) && (call.phase.Running? || call.phase.Rerunning?)
    ensures var p := call.phase;
            CallOk(cache, call.(phase := if p.Running? then Judging(p.endpoint, result) else Returned(p.endpoint, result),
                                runs := call.runs + [Ran(p.endpoint, result, |cache.log|)]))
  {
    hide Discovered, P.InvalidatedAt, Evicted, Gave, Failed, SameEndpoint;
    var runs := call.runs + [Ran(call.phase.endpoint, result, |cache.log|)];
    assert forall i :: 0 <= i < |call.runs| ==> runs[i] == call.runs[i];
  }

  lemma JudgedOk(cache: P.State, call: Call, at: nat)
    requires CallOk(cache, call) && call.phase.Judging?
    requires Retriable(call.phase.result) ==> call.runs[0].at <= at && P.InvalidatedAt(cache.log, call.key.target, at)
    ensures var p := call.phase;
            CallOk(cache, call.(phase := if WantsRediscovery(p.result) then Forgotten(p.endpoint, p.result, at) else Returned(p.endpoint, p.result)))
  {
    hide Discovered, P.InvalidatedAt, Evicted, Gave, Failed, SameEndpoint;
  }

  lemma LookedOk(cache: P.State, call: Call, t: P.Tid)
    requires CallOk(cache, call) && call.phase.Forgotten?
    requires Asks(cache, call.key, t) && call.phase.at < cache.lookups[t].started
    ensures var p := call.phase;
            CallOk(cache, call.(phase := Rediscovering(p.endpoint, p.result, p.at, t), looks := call.looks + [t]))
  {
    hide Discovered, P.InvalidatedAt, Evicted, Gave, Failed, SameEndpoint;
  }

  lemma EvictedOk(cache: P.State, call: Call)
    requires CallOk(cache, call) && call.phase.Evicting? && call.looks != [] && Evicted(cache, call.key, call.looks[|call.looks| - 1])
    ensures var p := call.phase;
            CallOk(cache, call.(phase := if p.after.Some? then Returned(p.after.value.0, p.after.value.1) else Raised))
  {
    hide Discovered, P.InvalidatedAt, Gave, Failed, SameEndpoint;
      }

  lemma FoundKept(s: State, c: Cid)
    requires Inv(s) && Enabled(s, Found(c))
    ensures CallOk(CacheOf(s), NextCall(s, Found(c)))
  {
    var call := s.calls[c];
    assert CallOk(CacheOf(s), call);
    if CacheOf(s).lookups[call.phase.t].phase.outcome.Returned? { RediscoveryIsFresh(s.history, call); }
    hide CallOk, P.Run, AfterLooking, AfterRediscovering;
    FoundOk(CacheOf(s), call);
  }

  lemma ExecKept(s: State, c: Cid, result: KubeResult)
    requires Inv(s) && Enabled(s, Exec(c, result))
    ensures CallOk(CacheOf(s), NextCall(s, Exec(c, result)))
  {
    hide CallOk, P.Run;
    assert CallOk(CacheOf(s), s.calls[c]);
    RanOk(CacheOf(s), s.calls[c], result);
  }

  /** The steps that touch the cache: what they log is where the call says it is. */
  lemma StepLogs(s: State, a: Action)
    requires Enabled(s, a) && (a.Judge? || a.Evict?) && CacheSteps(s, a) != []
    ensures P.InvalidatedAt(CacheOf(Apply(s, a)).log, s.calls[a.c].key.target, |CacheOf(s).log|)
  {
    RunOneMore(s.history, CacheSteps(s, a)[0]);
  }

  lemma FramedBy(s: State, a: Action)
    requires Inv(s) && Enabled(s, a) && !a.Cache? && !a.Start?
    ensures CallOk(CacheOf(Apply(s, a)), s.calls[a.c])
  {
    CacheGrows(s, a);
    CallFrame(CacheOf(s), CacheOf(Apply(s, a)), s.calls[a.c]);
  }

  lemma JudgeKept(s: State, c: Cid)
    requires Inv(s) && Enabled(s, Judge(c))
    ensures CallOk(CacheOf(Apply(s, Judge(c))), NextCall(s, Judge(c)))
  {
    var a := Judge(c);
    assert CallOk(CacheOf(s), s.calls[c]);
    FramedBy(s, a);
    if Retriable(s.calls[c].phase.result) { StepLogs(s, a); }
    hide CallOk, CacheOf, Apply, P.InvalidatedAt;
    JudgedOk(CacheOf(Apply(s, a)), s.calls[c], |CacheOf(s).log|);
  }

  lemma LookKept(s: State, a: Action)
    requires Inv(s) && Enabled(s, a) && a.Look?
    ensures CallOk(CacheOf(Apply(s, a)), NextCall(s, a))
  {
    FramedBy(s, a);
    LookStarts(s, a);
    hide CallOk, CacheOf, Apply;
    LookedOk(CacheOf(Apply(s, a)), s.calls[a.c], a.t);
  }

  lemma LookStarts(s: State, a: Action)
    requires Inv(s) && Enabled(s, a) && a.Look?
    ensures var cache, call := CacheOf(Apply(s, a)), s.calls[a.c];
            Asks(cache, call.key, a.t) && call.phase.at < cache.lookups[a.t].started
  {
    assert CallOk(CacheOf(s), s.calls[a.c]);
    RunOneMore(s.history, CacheSteps(s, a)[0]);
  }

  lemma EvictKept(s: State, c: Cid)
    requires Inv(s) && Enabled(s, Evict(c))
    ensures CallOk(CacheOf(Apply(s, Evict(c))), NextCall(s, Evict(c)))
  {
    var a := Evict(c);
    assert CallOk(CacheOf(s), s.calls[c]) && s.calls[c].looks != [];
    FramedBy(s, a);
    StepLogs(s, a);
    EvictsLast(s, a);
    hide CallOk, CacheOf, Apply, Evicted;
    EvictedOk(CacheOf(Apply(s, a)), s.calls[c]);
  }

  lemma EvictsLast(s: State, a: Action)
    requires Inv(s) && Enabled(s, a) && a.Evict? && s.calls[a.c].looks != []
    requires P.InvalidatedAt(CacheOf(Apply(s, a)).log, s.calls[a.c].key.target, |CacheOf(s).log|)
    ensures var call := s.calls[a.c]; Evicted(CacheOf(Apply(s, a)), call.key, call.looks[|call.looks| - 1])
  {
    var call := s.calls[a.c];
    var t := call.looks[|call.looks| - 1];
    LastLookIsThere(CacheOf(s), call);
    hide CallOk, CacheOf, P.InvalidatedAt, Apply;
    StartedBefore(s, t);
    CacheGrows(s, a);
    assert CacheOf(Apply(s, a)).lookups[t].started <= |CacheOf(s).log|;
  }

  lemma StartedBefore(s: State, t: P.Tid)
    requires t in CacheOf(s).lookups
    ensures CacheOf(s).lookups[t].started <= |CacheOf(s).log|
  {
    P.RunInv(s.history);
    assert P.LookupOk(CacheOf(s), CacheOf(s).lookups[t]);
  }

  lemma LastLookIsThere(cache: P.State, call: Call)
    requires CallOk(cache, call) && call.phase.Evicting?
    ensures call.looks != [] && call.looks[|call.looks| - 1] in cache.lookups
  {
  }

  lemma StartKept(s: State, a: Action)
    requires Enabled(s, a) && a.Start?
    ensures CallOk(CacheOf(Apply(s, a)), Apply(s, a).calls[a.c])
  {
    RunOneMore(s.history, CacheSteps(s, a)[0]);
  }

  lemma OwnKept(s: State, a: Action)
    requires Inv(s) && Enabled(s, a) && !a.Cache?
    ensures CallOk(CacheOf(Apply(s, a)), Apply(s, a).calls[a.c])
  {
    if a.Start? {
      StartKept(s, a);
    } else if a.Found? {
      FoundKept(s, a.c);
      assert s.history + CacheSteps(s, a) == s.history;
    } else if a.Exec? {
      ExecKept(s, a.c, a.result);
      assert s.history + CacheSteps(s, a) == s.history;
    } else if a.Judge? {
      JudgeKept(s, a.c);
    } else if a.Look? {
      LookKept(s, a);
    } else {
      EvictKept(s, a.c);
    }
  }

  lemma {:induction false} RunInv(actions: seq<Action>)
    ensures Inv(Run(actions))
  {
    if actions != [] {
      var s, a := Run(actions[..|actions| - 1]), actions[|actions| - 1];
      RunInv(actions[..|actions| - 1]);
      CacheGrows(s, a);
      forall c | c in Apply(s, a).calls ensures CallOk(CacheOf(Apply(s, a)), Apply(s, a).calls[c]) {
        if Enabled(s, a) && !a.Cache? && c == a.c {
          OwnKept(s, a);
        } else {
          CallFrame(CacheOf(s), CacheOf(Apply(s, a)), s.calls[c]);
        }
      }
    }
  }

  /** A call that returns gives the result of its last run and the endpoint that run was on,
      and is exactly the call `OneCall` describes. */
  lemma RetryRefinesOneCall(actions: seq<Action>, c: Cid)
    requires c in Run(actions).calls && Run(actions).calls[c].phase.Returned?
    ensures var call := Run(actions).calls[c];
            var runs := call.runs;
            && OneCall(CacheOf(Run(actions)), call)
            && runs[|runs| - 1].endpoint == call.phase.endpoint && runs[|runs| - 1].result == call.phase.result
  {
    RunInv(actions);
    assert CallOk(CacheOf(Run(actions)), Run(actions).calls[c]);
  }

  /** A call raises only for a discovery: its first, whatever the error, or its second with an
      error that is not the runtime's own. */
  lemma RaisesOnlyForDiscovery(actions: seq<Action>, c: Cid)
    requires c in Run(actions).calls && Run(actions).calls[c].phase.Raised?
    ensures RaisedOk(CacheOf(Run(actions)), Run(actions).calls[c])
  {
    RunInv(actions);
    assert CallOk(CacheOf(Run(actions)), Run(actions).calls[c]);
  }

  /** A moved pod is run on: with a second discovery that gave another endpoint, the call goes
      on to a run on it. */
  lemma MovedPodIsRunOn(s: State, c: Cid, a: P.Answer)
    requires Enabled(s, Found(c)) && s.calls[c].phase.Rediscovering?
    requires Gave(CacheOf(s), s.calls[c].phase.t, a) && a.text != s.calls[c].phase.endpoint.text
    ensures Apply(s, Found(c)).calls[c].phase == Rerunning(a)
  {
  }
}
