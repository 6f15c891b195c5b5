/** The process-wide cache of discovery answers (admin_console/agent_runtime.py).

    `Contents` is what the cache's own lock protects.  Each critical section of
    the source is a function on `Contents`, and the class below is the mutable
    object whose methods are proved to perform exactly those functions.  The
    order in which concurrent lookups run the sections is in DiscoveryProtocol. */
module DiscoveryCache {
  import opened Options

  /** The cluster namespace an answer belongs to. */
  datatype TargetKey = TargetKey(project: string, cluster: string, location: string, namespace: string)

  datatype CacheKey = CacheKey(target: TargetKey, question: string)

  datatype Entry<+V> = Entry(value: V, expiresAt: real)

  /** One key's single-flight state. */
  datatype Flight<+E> = Flight(attempts: nat, error: Option<E>, generation: nat)

  datatype Contents<+V, +E> = Contents(entries: map<CacheKey, Entry<V>>, flights: map<CacheKey, Flight<E>>)

  /** What a lookup learns when it first looks: a held answer, or a flight to queue on. */
  datatype Joining<+V> = Hit(value: V) | Joined(joinedAt: nat)

  /** What a lookup learns once it has the flight's lock. */
  datatype Verdict<+V, +E> = Held(value: V) | Share(error: E) | Attempt(generation: nat)

  /** The entry of `key` that has not expired at `clock`, if any. */
  function Fresh<V, E>(c: Contents<V, E>, key: CacheKey, clock: real): Option<V> {
    if key in c.entries && clock < c.entries[key].expiresAt then Some(c.entries[key].value) else None
  }

  /** `c` with `key`'s entry dropped if it has expired. */
  function Purged<V, E>(c: Contents<V, E>, key: CacheKey, clock: real): Contents<V, E> {
    if Fresh(c, key, clock).None? then c.(entries := c.entries - {key}) else c
  }

  function JoinFlights<E>(flights: map<CacheKey, Flight<E>>, key: CacheKey): map<CacheKey, Flight<E>> {
    if key in flights then flights else flights[key := Flight(0, None, 0)]
  }

  function JoinSection<V, E>(c: Contents<V, E>, key: CacheKey, clock: real): (Contents<V, E>, Joining<V>) {
    match Fresh(c, key, clock)
    case Some(v) => (c, Hit(v))
    case None =>
      var flights := JoinFlights(c.flights, key);
      (Contents(c.entries - {key}, flights), Joined(flights[key].attempts))
  }

  function RecheckSection<V, E>(c: Contents<V, E>, key: CacheKey, joinedAt: nat, clock: real): (Contents<V, E>, Verdict<V, E>)
    requires key in c.flights
  {
    var flight := c.flights[key];
    match Fresh(c, key, clock)
    case Some(v) => (c, Held(v))
    case None =>
      (Purged(c, key, clock),
       if flight.attempts != joinedAt && flight.error.Some? then Share(flight.error.value)
       else Attempt(flight.generation))
  }

  function FailSection<V, E>(c: Contents<V, E>, key: CacheKey, error: E): Contents<V, E>
    requires key in c.flights
  {
    var flight := c.flights[key];
    c.(flights := c.flights[key := flight.(attempts := flight.attempts + 1, error := Some(error))])
  }

  function AnswerSection<V, E>(c: Contents<V, E>, key: CacheKey, generation: nat, value: V, expiresAt: real): Contents<V, E>
    requires key in c.flights
  {
    var flight := c.flights[key];
    Contents(
      if flight.generation == generation then c.entries[key := Entry(value, expiresAt)] else c.entries,
      c.flights[key := flight.(attempts := flight.attempts + 1, error := None)])
  }

  /** Whether an invalidation of `scope` (every target when None) covers `target`. */
  predicate Covers(scope: Option<TargetKey>, target: TargetKey) {
    scope.None? || scope.value == target
  }

  function Bumped<E>(flights: map<CacheKey, Flight<E>>, scope: Option<TargetKey>): map<CacheKey, Flight<E>> {
    map k | k in flights ::
      if Covers(scope, k.target) then flights[k].(generation := flights[k].generation + 1) else flights[k]
  }

  function InvalidateSection<V, E>(c: Contents<V, E>, scope: Option<TargetKey>): Contents<V, E> {
    Contents(map k | k in c.entries && !Covers(scope, k.target) :: c.entries[k], Bumped(c.flights, scope))
  }

  /** The mutable cache.  Each method is one critical section under the cache's lock. */
  class RuntimeDiscoveryCache<V, E> {
    var entries: map<CacheKey, Entry<V>>
    var inFlight: map<CacheKey, Flight<E>>

    function View(): Contents<V, E>
      reads this
    {
      Contents(entries, inFlight)
    }

    constructor ()
      ensures View() == Contents(map[], map[])
    {
      entries, inFlight := map[], map[];
    }

    method FreshEntry(key: CacheKey, clock: real) returns (held: Option<V>)
      modifies this
      ensures held == Fresh(old(View()), key, clock)
      ensures View() == Purged(old(View()), key, clock)
      // An entry is given until its expiry and is gone from then on; no other is touched.
      ensures held.Some? <==> key in old(entries) && clock < old(entries)[key].expiresAt
      ensures held.Some? ==> held.value == old(entries)[key].value && entries == old(entries)
      ensures held.None? ==> entries == old(entries) - {key}
      ensures inFlight == old(inFlight)
    {
      if key !in entries {
        assert entries - {key} == entries;
        return None;
      }
      if entries[key].expiresAt <= clock {
        entries := entries - {key};
        return None;
      }
      return Some(entries[key].value);
    }

    method Join(key: CacheKey, clock: real) returns (r: Joining<V>)
      modifies this
      ensures (View(), r) == JoinSection(old(View()), key, clock)
    {
      var held := FreshEntry(key, clock);
      if held.Some? {
        return Hit(held.value);
      }
      if key !in inFlight {
        inFlight := inFlight[key := Flight(0, None, 0)];
      }
      r := Joined(inFlight[key].attempts);
    }

    method Recheck(key: CacheKey, joinedAt: nat, clock: real) returns (r: Verdict<V, E>)
      requires key in inFlight
      modifies this
      ensures (View(), r) == RecheckSection(old(View()), key, joinedAt, clock)
    {
      var held := FreshEntry(key, clock);
      if held.Some? {
        return Held(held.value);
      }
      var flight := inFlight[key];
      if flight.attempts != joinedAt && flight.error.Some? {
        return Share(flight.error.value);
      }
      r := Attempt(flight.generation);
    }

    method Fail(key: CacheKey, error: E)
      requires key in inFlight
      modifies this
      ensures View() == FailSection(old(View()), key, error)
    {
      inFlight := inFlight[key := inFlight[key].(attempts := inFlight[key].attempts + 1)];
      inFlight := inFlight[key := inFlight[key].(error := Some(error))];
    }

    method Answer(key: CacheKey, generation: nat, value: V, expiresAt: real)
      requires key in inFlight
      modifies this
      ensures View() == AnswerSection(old(View()), key, generation, value, expiresAt)
    {
      if inFlight[key].generation == generation {
        entries := entries[key := Entry(value, expiresAt)];
      }
      inFlight := inFlight[key := inFlight[key].(attempts := inFlight[key].attempts + 1)];
      inFlight := inFlight[key := inFlight[key].(error := None)];
    }

    method Invalidate(scope: Option<TargetKey>)
      modifies this
      ensures View() == InvalidateSection(old(View()), scope)
    {
      DropEntries(scope);
      BumpFlights(scope);
    }

    /** The first loop of `invalidate`: over a copy of the covered keys. */
    method DropEntries(scope: Option<TargetKey>)
      modifies this`entries
      ensures entries == InvalidateSection(old(View()), scope).entries
    {
      var doomed := set k | k in entries && Covers(scope, k.target);
      while doomed != {}
        invariant forall k :: k in entries ==> k in old(entries) && entries[k] == old(entries)[k]
        invariant forall k :: k in entries && Covers(scope, k.target) ==> k in doomed
        invariant forall k :: k in old(entries) && !Covers(scope, k.target) ==> k in entries && k !in doomed
        decreases doomed
      {
        var k :| k in doomed;
        entries := entries - {k};
        doomed := doomed - {k};
      }
    }

    /** The second loop of `invalidate`: over every flight ever created. */
    method BumpFlights(scope: Option<TargetKey>)
      modifies this`inFlight
      ensures inFlight == Bumped(old(inFlight), scope)
    {
      var rest := inFlight.Keys;
      ghost var goal := Bumped(inFlight, scope);
      while rest != {}
        invariant rest <= inFlight.Keys == old(inFlight).Keys
        invariant forall k :: k in rest ==> inFlight[k] == old(inFlight)[k]
        invariant forall k :: k in inFlight && k !in rest ==> inFlight[k] == goal[k]
        decreases rest
      {
        var k :| k in rest;
        if Covers(scope, k.target) {
          inFlight := inFlight[k := inFlight[k].(generation := inFlight[k].generation + 1)];
        }
        rest := rest - {k};
      }
    }
  }
}
