/** Holding a Boskos project across termination signals (hack/boskos_pool.py).

    `schedule` is an arbitrary list of what the kernel does: at every statement
    boundary (`Boundary`) the signals up to the next `Quiet` are delivered to the
    main thread, each to whichever handler is installed at that moment.  The
    handlers are Python code themselves, so more signals can land inside them.
    Python's exceptions are out-parameters: `raised` is an exception that leaves
    the method, and a `finally` block is the code that runs either way. */
module BoskosHold {

  datatype Signal = SigTerm | SigInt

  datatype Slot = Quiet | Arrives(signal: Signal)

  /** What is installed for a signal: `terminate` or `_defer`. */
  datatype Handler = Terminate | Defer

  type Name = string

  datatype Event =
    | Acquired(name: Name)
    | Arms(name: Name)            // the `try` whose `finally` releases the project is entered
    | Visits(name: Name)
    | ReleaseStarts(name: Name)
    | ReleaseEnds(name: Name)
    | Raises                      // Terminated is raised in the main thread

  /** What can be seen of one hold: nothing acquired, acquired and not yet covered by its
      `finally`, covered, being given back, given back, or out of order. */
  datatype Watch =
    | Idle
    | Taken(name: Name)
    | Armed(name: Name)
    | GivingBack(name: Name)
    | Given(name: Name)
    | OutOfOrder

  function Observe(w: Watch, e: Event): Watch {
    match e
    case Acquired(n) => if w.Idle? then Taken(n) else OutOfOrder
    case Arms(n) => if w == Taken(n) then Armed(n) else OutOfOrder
    case Visits(n) => if w == Armed(n) then w else OutOfOrder
    case ReleaseStarts(n) => if w == Armed(n) then GivingBack(n) else OutOfOrder
    case ReleaseEnds(n) => if w == GivingBack(n) then Given(n) else OutOfOrder
    case Raises => if w.Taken? || w.GivingBack? then OutOfOrder else w
  }

  function Watched(events: seq<Event>): Watch {
    if events == [] then Idle else Observe(Watched(events[..|events| - 1]), events[|events| - 1])
  }

  /** What is seen from position `start` on. */
  function Since(events: seq<Event>, start: nat): Watch
    requires start <= |events|
  {
    Watched(events[start..])
  }

  lemma SinceAppend(events: seq<Event>, e: Event, start: nat)
    requires start <= |events|
    ensures Since(events + [e], start) == Observe(Since(events, start), e)
  {
    assert (events + [e])[start..] == events[start..] + [e];
    assert (events[start..] + [e])[..|events| - start] == events[start..];
  }

  function CountReleases(events: seq<Event>): nat {
    if events == [] then 0
    else CountReleases(events[..|events| - 1]) + (if events[|events| - 1].ReleaseEnds? then 1 else 0)
  }

  function CountAcquires(events: seq<Event>): nat {
    if events == [] then 0
    else CountAcquires(events[..|events| - 1]) + (if events[|events| - 1].Acquired? then 1 else 0)
  }

  /** What a watch in order has seen: idle, no acquire and no release; given back, exactly
      one of each, of the project it names; in between, the acquire alone. */
  lemma {:induction false} GivenBackOnce(events: seq<Event>)
    requires !Watched(events).OutOfOrder?
    ensures CountAcquires(events) == if Watched(events).Idle? then 0 else 1
    ensures CountReleases(events) == if Watched(events).Given? then 1 else 0
  {
    if events != [] { GivenBackOnce(events[..|events| - 1]); }
  }

  lemma {:induction false} WatchNames(events: seq<Event>, n: Name)
    ensures Watched(events) in {Taken(n), Armed(n), GivingBack(n), Given(n)} ==> Acquired(n) in events
    ensures Watched(events) == Given(n) ==> ReleaseEnds(n) in events
  {
    if events != [] {
      WatchNames(events[..|events| - 1], n);
      var last := events[|events| - 1];
      assert last in events && forall e :: e in events[..|events| - 1] ==> e in events;
    }
  }

  datatype Acquire = NoneFree | Got(name: Name) | AcquireFails

  /** A visit runs for some statements and then returns or raises its own error;
      it does not catch Terminated. */
  datatype Visit = Visit(statements: nat, fails: bool)

  /** A release is accepted, fails with an error the hold records, or fails with
      one it does not expect. */
  datatype Release = Accepted | Recorded(error: string) | Unexpected

  datatype Ending = Completed | NotAcquired | Failed | Terminated

  /** What `release_failures` keeps: joined to what the visit recorded, if it did. */
  function Noted(failures: map<Name, string>, name: Name, release: Release): map<Name, string> {
    if !release.Recorded? then failures
    else
      var before := if name in failures && failures[name] != "" then failures[name] + "; " else "";
      failures[name := before + "release failed: " + release.error]
  }

  predicate EndsWith(s: string, end: string) {
    |end| <= |s| && s[|s| - |end|..] == end
  }

  lemma NotedKeeps(failures: map<Name, string>, name: Name, release: Release)
    ensures var noted := Noted(failures, name, release);
            && (!release.Recorded? ==> noted == failures)
            && (release.Recorded? ==>
                  && name in noted && EndsWith(noted[name], "release failed: " + release.error)
                  && (name in failures ==> failures[name] <= noted[name]))
            && forall n :: n != name ==> (n in noted <==> n in failures) && (n in noted ==> noted[n] == failures[n])
  {
  }

  /** How a hold ends when no signal comes. */
  function Plain(acquire: Acquire, heartbeatFails: bool, visit: Visit, release: Release): Ending {
    match acquire
    case NoneFree => NotAcquired
    case AcquireFails => Failed
    case Got(_) => if heartbeatFails || visit.fails || release.Unexpected? then Failed else Completed
  }

  class MainThread {
    /** Whether a signal is also acted on between the end of the visit and the inner `try`
        of the `finally`, where CPython does not look for one. */
    const gap: bool
    var term: Handler
    var int_: Handler
    var depth: nat
    var deferred: seq<Signal>
    var schedule: seq<Slot>
    var received: nat
    var events: seq<Event>
    var failures: map<Name, string>

    /** Both signals deferred. */
    predicate Shielded()
      reads this
    {
      term.Defer? && int_.Defer?
    }

    /** Signals are deferred inside every hold. */
    predicate Valid()
      reads this
    {
      depth > 0 ==> Shielded()
    }

    /** The visit of `name` has begun since `start`. */
    ghost predicate Visited(name: Name, start: nat)
      reads this`events
    {
      exists i :: start <= i < |events| && events[i] == Visits(name)
    }

    /** What a stretch of code that touches no hold of its own can do. */
    twostate predicate Steps()
      reads this
    {
      && depth == old(depth) && failures == old(failures)
      && |schedule| <= |old(schedule)|
      && old(deferred) <= deferred
      && received >= old(received)
      && |deferred| - |old(deferred)| <= received - old(received)
    }

    /** It ends normally: nothing it received was dropped. */
    twostate predicate Passes()
      reads this
    {
      && Steps() && events == old(events)
      && |deferred| - |old(deferred)| == received - old(received)
    }

    /** It ends with Terminated: every later signal is deferred. */
    twostate predicate Interrupts()
      reads this
    {
      && Steps() && events == old(events) + [Raises] && Shielded()
      && |deferred| - |old(deferred)| < received - old(received)
    }

    /** Between two statements: deliver what has arrived. */
    method Boundary() returns (raised: bool)
      requires Valid()
      modifies this
      ensures Valid()
      ensures old(Shielded()) ==> !raised
      ensures raised ==> Interrupts()
      ensures !raised ==> Passes() && term == old(term) && int_ == old(int_)
      ensures !raised && term.Terminate? && int_.Terminate? ==> received == old(received) && deferred == old(deferred)
      // A signal goes to its own handler: one that terminates raises, one that defers keeps it for later.
      ensures old(schedule) != [] && !old(schedule)[0].Quiet? ==>
        var signal := old(schedule)[0].signal;
        if (if signal.SigTerm? then old(term) else old(int_)).Terminate? then raised
        else old(deferred) + [signal] <= deferred
      decreases |schedule|, 0
    {
      if schedule == [] { return false; }
      var slot := schedule[0];
      schedule := schedule[1..];
      if slot.Quiet? { return false; }
      received := received + 1;
      var handler := if slot.signal.SigTerm? then term else int_;
      if handler.Defer? {
        deferred := deferred + [slot.signal];
        raised := Boundary();
      } else {
        HandleTerminate();
        raised := true;
      }
    }

    /** `terminate`: defer later terminations, then raise. */
    method HandleTerminate()
      requires Valid()
      modifies this
      ensures Valid() && Shielded() && Steps() && events == old(events) + [Raises]
      decreases |schedule|, 2
    {
      var raised := DeferTerminations();
      if raised { return; }
      raised := Boundary();
      events := events + [Raises];
    }

    /** `_defer_terminations`, for both signals. */
    method DeferTerminations() returns (raised: bool)
      requires Valid()
      modifies this
      ensures Valid() && Shielded()
      ensures raised ==> Interrupts()
      ensures !raised ==> Passes()
      decreases |schedule|, 1
    {
      raised := Boundary();
      if raised { return; }
      if term.Terminate? {
        raised := Boundary();
        if raised { return; }
        term := Defer;
      }
      raised := Boundary();
      if raised { return; }
      if int_.Terminate? {
        raised := Boundary();
        if raised { return; }
        int_ := Defer;
      }
    }
  
    /** `_hold_signals(True)`: the handlers are swapped before the hold is counted. */
    method Block() returns (raised: bool)
      requires Valid()
      modifies this
      ensures Valid() && Shielded()
      ensures raised ==> old(depth) == 0 && Interrupts()
      ensures !raised ==>
        && depth == old(depth) + 1 && failures == old(failures) && events == old(events)
        && |deferred| - |old(deferred)| == received - old(received) >= 0
    {
      if depth == 0 {
        raised := DeferTerminations();
        if raised { return; }
      }
      raised := Boundary();
      depth := depth + 1;
    }

    /** `_hold_signals(False)`: at depth 0 the handlers are restored and the first
        deferred termination is raised.  A signal that lands while they are being
        restored is raised or deferred like any other. */
    method Unblock() returns (raised: bool)
      requires Valid()
      modifies this
      ensures Valid()
      ensures depth == (if old(depth) == 0 then 0 else old(depth) - 1) && failures == old(failures)
      ensures received >= old(received)
      ensures |deferred| - |old(deferred)| <= received - old(received)
      ensures depth > 0 ==> !raised && |deferred| - |old(deferred)| == received - old(received)
      ensures depth == 0 && !raised ==> term.Terminate? && int_.Terminate? && deferred == old(deferred) == [] && received == old(received)
      ensures raised ==> Shielded() && (old(deferred) != [] || received > old(received))
      // What raises is not kept for later as well.
      ensures raised ==> |deferred| - |old(deferred)| < received - old(received)
      ensures events == if raised then old(events) + [Raises] else old(events)
    {
      if depth > 0 {
        raised := Boundary();
        depth := depth - 1;
        if depth > 0 {
          raised := Boundary();
          return;
        }
      }
      raised := Restore();
      if raised || deferred == [] { return; }
      raised := Boundary();
      if raised { return; }
      deferred := [];
      raised := DeferTerminations();
      if raised { return; }
      events := events + [Raises];
      raised := true;
    }

    /** The settle pause and the loop that puts `terminate` back. */
    method Restore() returns (raised: bool)
      requires depth == 0
      modifies this
      ensures depth == 0
      ensures raised ==> Interrupts()
      ensures !raised ==> Passes() && term.Terminate? && int_.Terminate?
    {
      raised := RestoreTerm();
      if raised { return; }
      raised := RestoreInt();
    }

    method RestoreTerm() returns (raised: bool)
      requires depth == 0
      modifies this
      ensures raised ==> Interrupts()
      ensures !raised ==> Passes() && term.Terminate?
    {
      raised := Boundary();
      if raised { return; }
      if term.Defer? {
        raised := Boundary();
        if raised { return; }
        term := Terminate;
      }
    }

    method RestoreInt() returns (raised: bool)
      requires depth == 0 && term.Terminate?
      modifies this
      ensures raised ==> Interrupts()
      ensures !raised ==> Passes() && term.Terminate? && int_.Terminate?
    {
      raised := Boundary();
      if raised { return; }
      if int_.Defer? {
        raised := Boundary();
        if raised { return; }
        int_ := Terminate;
      }
      raised := Boundary();
    }
  
    method Emit(e: Event, ghost start: nat)
      requires start <= |events|
      modifies this`events
      ensures events == old(events) + [e] && Since(events, start) == Observe(Since(old(events), start), e)
    {
      SinceAppend(events, e, start);
      events := events + [e];
    }

    /** A deferred stretch of code: signals land, none raises. */
    method Shelter()
      requires Valid() && Shielded()
      modifies this
      ensures Valid() && Shielded() && Passes()
    {
      var raised := Boundary();
      raised := Boundary();
    }

    /** `visit(name)`. */
    method RunVisit(name: Name, visit: Visit, ghost start: nat) returns (e: Ending)
      requires Valid() && (depth == 0 ==> term.Terminate? && int_.Terminate?)
      requires start <= |events| && Since(events, start) == Armed(name)
      modifies this
      ensures Valid() && depth == old(depth) && failures == old(failures)
      ensures old(events) <= events && Since(events, start) == Armed(name)
      ensures received >= old(received)
      ensures |deferred| - |old(deferred)| <= received - old(received)
      ensures e.Terminated? <==> depth == 0 && received > old(received)
      ensures depth > 0 ==> |deferred| - |old(deferred)| == received - old(received)
      ensures !e.Terminated? ==> (e.Failed? <==> visit.fails) && (e.Completed? <==> !visit.fails)
      ensures e.Terminated? ==> Shielded() && |deferred| - |old(deferred)| < received - old(received)
      ensures Visited(name, start)
    {
      Emit(Visits(name), start);
      assert events[|old(events)|] == Visits(name);
      var left := visit.statements;
      var raised := false;
      while left > 0
        invariant Valid() && depth == old(depth) && failures == old(failures)
        invariant events == old(events) + [Visits(name)]
        invariant depth == 0 ==> term.Terminate? && int_.Terminate? && received == old(received) && deferred == old(deferred)
        invariant received >= old(received)
        invariant depth > 0 ==> |deferred| - |old(deferred)| == received - old(received)
      {
        raised := Boundary();
        if raised {
          SinceAppend(old(events) + [Visits(name)], Raises, start);
          assert events[|old(events)|] == Visits(name);
          return Terminated;
        }
        left := left - 1;
      }
      assert events[|old(events)|] == Visits(name);
      e := if visit.fails then Failed else Completed;
    }
  
    /** `release_settled` and what the hold does with its outcome, under held signals. */
    method GiveBack(name: Name, release: Release, ghost start: nat)
      requires Valid() && Shielded()
      requires start <= |events| && Since(events, start) == Armed(name)
      modifies this
      ensures Valid() && Shielded() && depth == old(depth)
      ensures old(events) <= events && Since(events, start) == Given(name)
      ensures |deferred| - |old(deferred)| == received - old(received) >= 0
      ensures failures == Noted(old(failures), name, release)
    {
      Shelter();
      Emit(ReleaseStarts(name), start);
      Shelter();
      Emit(ReleaseEnds(name), start);
      Shelter();
      if release.Recorded? {
        var before := if name in failures && failures[name] != "" then failures[name] + "; " else "";
        failures := failures[name := before + "release failed: " + release.error];
      }
    }

    /** Lines 292 to 305: with the `finally` armed, give up the hold and visit. */
    method Body(name: Name, heartbeatFails: bool, visit: Visit, ghost start: nat) returns (e: Ending, unblocked: bool)
      requires Valid() && depth > 0
      requires start <= |events| && Since(events, start) == Armed(name)
      modifies this
      ensures Valid() && failures == old(failures) && received >= old(received)
      ensures old(events) <= events && Since(events, start) == Armed(name)
      ensures |deferred| - |old(deferred)| <= received - old(received)
      ensures unblocked == !heartbeatFails
      ensures depth == if unblocked then old(depth) - 1 else old(depth)
      ensures e.Terminated? ==> depth == 0 && Shielded() && (old(deferred) != [] || received > old(received)) && |deferred| - |old(deferred)| < received - old(received)
      ensures depth == 0 && !e.Terminated? ==> old(deferred) == [] && received == old(received)
      ensures depth > 0 ==> |deferred| - |old(deferred)| == received - old(received)
      ensures e != NotAcquired
      ensures !e.Terminated? ==> (e.Failed? <==> heartbeatFails || visit.fails)
      ensures !e.Terminated? && !heartbeatFails ==> Visited(name, start)
    {
      Shelter();
      if heartbeatFails { return Failed, false; }
      unblocked := true;
      var raised := Unblock();
      if raised {
        SinceAppend(old(events), Raises, start);
        return Terminated, unblocked;
      }
      e := RunVisit(name, visit, start);
    }
  
    /** The same, and the place between the visit and the inner `try`. */
    method BodyAndGap(name: Name, heartbeatFails: bool, visit: Visit, ghost start: nat)
      returns (e: Ending, unblocked: bool, stranded: bool)
      requires Valid() && depth > 0
      requires start <= |events| && Since(events, start) == Armed(name)
      modifies this
      ensures Valid() && failures == old(failures) && received >= old(received)
      ensures old(events) <= events && Since(events, start) == Armed(name)
      ensures |deferred| - |old(deferred)| <= received - old(received)
      ensures unblocked == !heartbeatFails
      ensures depth == if unblocked then old(depth) - 1 else old(depth)
      ensures e.Terminated? ==> depth == 0 && Shielded() && (old(deferred) != [] || received > old(received)) && |deferred| - |old(deferred)| < received - old(received)
      ensures depth == 0 && !e.Terminated? ==> old(deferred) == [] && (received > old(received) ==> deferred != [])
      ensures depth > 0 ==> |deferred| - |old(deferred)| == received - old(received)
      ensures e != NotAcquired
      ensures !e.Terminated? ==> (e.Failed? <==> heartbeatFails || visit.fails)
      ensures !e.Terminated? && !heartbeatFails ==> Visited(name, start)
      ensures stranded ==> gap && e.Terminated?
    {
      e, unblocked := Body(name, heartbeatFails, visit, start);
      stranded := false;
      if gap {
        ghost var seen := events;
        stranded := Boundary();
        if stranded {
          SinceAppend(seen, Raises, start);
          e := Terminated;
        }
      }
    }

    /** Lines 306 to 327: hold the signals again if they were given up, then release
        the project whatever the re-hold did. */
    method Finally(name: Name, unblocked: bool, release: Release, e: Ending, ghost start: nat) returns (e': Ending)
      requires Valid() && (unblocked || depth > 0)
      requires start <= |events| && Since(events, start) == Armed(name)
      modifies this
      ensures Valid() && Shielded() && received >= old(received)
      ensures old(events) <= events && Since(events, start) == Given(name)
      ensures failures == Noted(old(failures), name, release)
      ensures depth == (if unblocked then old(depth) + 1 else old(depth)) || (old(depth) == depth == 0)
      ensures 0 <= |deferred| - |old(deferred)| <= received - old(received)
      ensures e'.Terminated? ==> e.Terminated? || (old(depth) == 0 && |deferred| - |old(deferred)| < received - old(received))
      ensures release.Unexpected? ==> e' == Failed
      ensures !release.Unexpected? ==> e' == e || e'.Terminated?
      ensures !release.Unexpected? && received > old(received) ==> e'.Terminated? || deferred != []
    {
      e' := e;
      if unblocked {
        var raised := Block();
        if raised {
          SinceAppend(old(events), Raises, start);
          e' := Terminated;
        }
      }
      GiveBack(name, release, start);
      if release.Unexpected? { e' := Failed; }
    }

    /** Lines 284 to 327: the body of the outer `try`. */
    method Hold(acquire: Acquire, heartbeatFails: bool, visit: Visit, release: Release, ghost start: nat)
      returns (e: Ending, stranded: bool)
      requires Valid() && depth > 0
      requires start == |events|
      modifies this
      ensures Valid() && Shielded() && received >= old(received)
      ensures depth == old(depth) || (old(depth) == 1 && depth == 0)
      ensures |deferred| - |old(deferred)| <= received - old(received)
      ensures stranded ==> gap && acquire.Got? && e.Terminated?
      ensures old(events) <= events
      // What was acquired is given back; a project that was not is not there to give.
      ensures Since(events, start) ==
        if !acquire.Got? then Idle else if stranded then Armed(acquire.name) else Given(acquire.name)
      ensures acquire.Got? && e.Completed? ==> Visited(acquire.name, start)
      ensures failures == if acquire.Got? && !stranded then Noted(old(failures), acquire.name, release) else old(failures)
      ensures if acquire.Got? then |events| > |old(events)| + 1 else events == old(events)
      ensures e.Terminated? ==> old(depth) == 1 && (received > old(received) || old(deferred) != []) && |deferred| - |old(deferred)| < received - old(received)
      ensures (received > old(received) || old(deferred) != []) && !(acquire.Got? && release.Unexpected?) ==> e.Terminated? || deferred != []
      ensures deferred != [] ==> received > old(received) || old(deferred) != []
      ensures !e.Terminated? ==> e == Plain(acquire, heartbeatFails, visit, release)
    {
      stranded := false;
      Shelter();
      if acquire.AcquireFails? { return Failed, false; }
      if acquire.NoneFree? { return NotAcquired, false; }
      var name := acquire.name;
      Emit(Acquired(name), start);
      Shelter();
      Emit(Arms(name), start);
      var unblocked: bool;
      e, unblocked, stranded := BodyAndGap(name, heartbeatFails, visit, start);
      if stranded { return; }
      e := Finally(name, unblocked, release, e, start);
    }

    /** `acquire_and_hold`. */
    method AcquireAndHold(acquire: Acquire, heartbeatFails: bool, visit: Visit, release: Release)
      returns (e: Ending, stranded: bool)
      requires Valid()
      modifies this
      ensures Valid() && depth == old(depth) && received >= old(received)
      // Every acquired project is given back, once, and no signal raised while it
      // was neither covered by its `finally` nor free of its release.
      ensures old(events) <= events
      ensures acquire.Got? && events != old(events) + [Raises] && !stranded ==>
        && Since(events, |old(events)|) == Given(acquire.name)
        && CountAcquires(events[|old(events)|..]) == CountReleases(events[|old(events)|..]) == 1
        && Acquired(acquire.name) in events[|old(events)|..] && ReleaseEnds(acquire.name) in events[|old(events)|..]
      // Only a signal acted on in the gap leaves it: then the project is acquired and never released.
      ensures stranded ==> gap && acquire.Got? && e.Terminated? && events != old(events) + [Raises]
      ensures stranded ==>
        && Since(events, |old(events)|) == Armed(acquire.name)
        && CountAcquires(events[|old(events)|..]) == 1 && CountReleases(events[|old(events)|..]) == 0
      // Nothing is acquired when there is nothing to acquire or a signal raised before.
      ensures !acquire.Got? || events == old(events) + [Raises] ==> Since(events, |old(events)|) == Idle
      ensures events == old(events) + [Raises] ==> e.Terminated?
      // A hold that completed has made its visit.
      ensures acquire.Got? && e.Completed? ==> Visited(acquire.name, |old(events)|)
      // A failed release is on the record, unless a signal came before the acquire.
      ensures failures ==
        if acquire.Got? && !stranded && events != old(events) + [Raises] then Noted(old(failures), acquire.name, release) else old(failures)
      // No signal is lost, and none is made up.
      ensures old(depth) == 0 && (received > old(received) || old(deferred) != []) && !(acquire.Got? && release.Unexpected?) ==> e.Terminated?
      ensures e.Terminated? ==> old(depth) == 0 && (received > old(received) || old(deferred) != [])
      // The signal that ended the call is used up: it is not deferred as well.
      ensures e.Terminated? ==> |deferred| - |old(deferred)| < received - old(received)
      // Without a signal, the outcome is that of the code inside.
      ensures !e.Terminated? ==> e == Plain(acquire, heartbeatFails, visit, release)
      ensures !e.Terminated? ==>
        && (e.NotAcquired? <==> acquire.NoneFree?)
        && (e.Completed? <==> acquire.Got? && !heartbeatFails && !visit.fails && !release.Unexpected?)
      // What a visit recorded is kept, with a failed release added after it; no other project's record changes.
      ensures failures != old(failures) ==> acquire.Got? && release.Recorded?
      ensures acquire.Got? && release.Recorded? && !stranded && events != old(events) + [Raises] ==>
        && acquire.name in failures && EndsWith(failures[acquire.name], "release failed: " + release.error)
        && (acquire.name in old(failures) ==> old(failures)[acquire.name] <= failures[acquire.name])
        && forall n :: n != acquire.name ==>
             (n in failures <==> n in old(failures)) && (n in failures ==> failures[n] == old(failures)[n])
    {
      if acquire.Got? { NotedKeeps(failures, acquire.name, release); }
      ghost var start := |events|;
      var raised := Block();
      if raised {
        SinceAppend(old(events), Raises, start);
        return Terminated, false;
      }
      e, stranded := Hold(acquire, heartbeatFails, visit, release, start);
      ghost var seen := events;
      raised := Unblock();
      if raised {
        SinceAppend(seen, Raises, start);
        e := Terminated;
      }
      GivenBackOnce(events[start..]);
      if acquire.Got? { WatchNames(events[start..], acquire.name); }
    }
  }
}
