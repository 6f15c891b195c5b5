/** Exactly which nestings of lookups inside computations are free of deadlock
    (admin_console/agent_runtime.py, `RuntimeDiscoveryCache.lookup`). */
module DiscoveryNesting {
  import opened DiscoveryCache
  import opened DiscoveryProtocol
  import opened DiscoveryTheorems

  /** Pairs of keys: a computation of the first may look up the second. */
  type Nesting = set<(CacheKey, CacheKey)>

  /** Every lookup ever made inside a computation is one the nesting allows. */
  ghost predicate Within(s: State, nesting: Nesting) {
    forall t :: t in s.lookups && s.lookups[t].parent.Some? && s.lookups[t].parent.value in s.lookups ==>
      (s.lookups[s.lookups[t].parent.value].key, s.lookups[t].key) in nesting
  }

  ghost predicate IsCycle(nesting: Nesting, keys: seq<CacheKey>) {
    keys != [] && Distinct(keys) && forall i :: 0 <= i < |keys| ==> (keys[i], NextKey(keys, i)) in nesting
  }

  ghost predicate Acyclic(nesting: Nesting) {
    forall keys :: !IsCycle(nesting, keys)
  }

  ghost predicate IsPath(nesting: Nesting, path: seq<CacheKey>) {
    path != [] && Distinct(path) && forall i :: 0 <= i < |path| - 1 ==> (path[i], path[i + 1]) in nesting
  }

  lemma Wraps(i: nat, n: nat)
    requires i < n
    ensures (i + 1) % n == if i == n - 1 then 0 else i + 1
  {
    if i < n - 1 { assert i + 1 < n; }
  }

  /** A path whose end leads back to its place `j` holds a cycle from there on. */
  lemma ClosesCycle(nesting: Nesting, path: seq<CacheKey>, j: nat)
    requires IsPath(nesting, path) && j < |path| && (path[|path| - 1], path[j]) in nesting
    ensures !Acyclic(nesting)
  {
    var cycle := path[j..];
    forall i | 0 <= i < |cycle| ensures (cycle[i], NextKey(cycle, i)) in nesting {
      Wraps(i, |cycle|);
      if i < |cycle| - 1 {
        assert (path[j + i], path[j + i + 1]) in nesting;
      }
    }
    assert IsCycle(nesting, cycle);
  }

  /** Where every key leads on, following the nesting closes a cycle. */
  lemma {:induction false} LeadsToCycle(nesting: Nesting, keys: set<CacheKey>, path: seq<CacheKey>)
    requires IsPath(nesting, path) && forall k :: k in path ==> k in keys
    requires forall k :: k in keys ==> exists next :: next in keys && (k, next) in nesting
    ensures !Acyclic(nesting)
    decreases keys - set k | k in path
  {
    var last := path[|path| - 1];
    assert last in path;
    var next :| next in keys && (last, next) in nesting;
    if j :| 0 <= j < |path| && path[j] == next {
      ClosesCycle(nesting, path, j);
    } else {
      var longer := path + [next];
      assert next in (keys - set k | k in path) && next in longer;
      LeadsToCycle(nesting, keys, longer);
    }
  }

  /** Without a cycle the keys can be ranked so that every nesting goes down. */
  lemma {:induction false} RankOf(nesting: Nesting, keys: set<CacheKey>) returns (rank: CacheKey -> nat)
    requires Acyclic(nesting)
    ensures forall a, b :: a in keys && b in keys && (a, b) in nesting ==> rank(b) < rank(a)
  {
    if keys == {} {
      rank := k => 0;
    } else {
      if forall k :: k in keys ==> exists next :: next in keys && (k, next) in nesting {
        var k :| k in keys;
        LeadsToCycle(nesting, keys, [k]);
      }
      var sink :| sink in keys && forall next :: next in keys ==> (sink, next) !in nesting;
      var below := RankOf(nesting, keys - {sink});
      rank := k => if k == sink then 0 else below(k) + 1;
    }
  }

  lemma NestedIsWithin(s: State, nesting: Nesting, keys: seq<CacheKey>, t: Tid)
    requires IsCycle(nesting, keys) && Nested(s, keys, |keys|)
    requires t in s.lookups && s.lookups[t].parent.Some? && s.lookups[t].parent.value in s.lookups
    ensures (s.lookups[s.lookups[t].parent.value].key, s.lookups[t].key) in nesting
  {
    hide NextKey, Distinct;
    assert t < |keys| ==> ComputingThe(s, t, keys[t]);
    var i := t - |keys|;
    assert QueuedBehindNext(s, keys, i) && ComputingThe(s, i, keys[i]);
  }

  /** A cycle the nesting allows is acted out by a run within it. */
  lemma CycleStaysWithin(nesting: Nesting, keys: seq<CacheKey>)
    requires IsCycle(nesting, keys)
    ensures Within(Run(Openings(keys, |keys|) + Nestings(keys, |keys|)), nesting)
  {
    hide Nested, Run, Openings, Nestings;
    CycleNests(keys, |keys|);
    var s := Run(Openings(keys, |keys|) + Nestings(keys, |keys|));
    forall t | t in s.lookups && s.lookups[t].parent.Some? && s.lookups[t].parent.value in s.lookups
      ensures (s.lookups[s.lookups[t].parent.value].key, s.lookups[t].key) in nesting
    {
      NestedIsWithin(s, nesting, keys, t);
    }
  }

  ghost predicate NeverDeadlocks(nesting: Nesting) {
    forall actions, t :: Within(Run(actions), nesting) ==> !Deadlocked(Run(actions), t)
  }

  /** No run within a nesting deadlocks any of its lookups exactly when the nesting has no
      cycle.  A computation that looks up its own key is a cycle of one; longer cycles
      deadlock as well. */
  lemma DeadlockFreeIff(nesting: Nesting)
    ensures NeverDeadlocks(nesting) <==> Acyclic(nesting)
  {
    if keys :| IsCycle(nesting, keys) {
      CycleFound(nesting, keys);
    } else {
      var keys := (set p | p in nesting :: p.0) + (set p | p in nesting :: p.1);
      var rank := RankOf(nesting, keys);
      assert forall p :: p in nesting ==> p.0 in keys && p.1 in keys && rank(p.1) < rank(p.0);
      forall actions, t | Within(Run(actions), nesting) ensures !Deadlocked(Run(actions), t) {
        assert Ranked(Run(actions), rank);
        hide Ranked, Deadlocked, Run;
        NoDeadlock(actions, rank, t);
      }
    }
  }

  lemma CycleFound(nesting: Nesting, keys: seq<CacheKey>)
    requires IsCycle(nesting, keys)
    ensures !NeverDeadlocks(nesting)
  {
    hide Deadlocked, Run, Openings, Nestings, Within;
    NestingCycleDeadlocks(keys, []);
    CycleStaysWithin(nesting, keys);
    var actions := Openings(keys, |keys|) + Nestings(keys, |keys|);
    assert ComputingThe(Run(actions), 0, keys[0]);
    assert Deadlocked(Run(actions), 0);
  }
}
