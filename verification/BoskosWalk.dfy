/** Walking the free projects of a Boskos pool (hack/boskos_pool.py, `walk`).

    Boskos hands out a free project whose stamp is oldest and stamps a project
    whenever its state changes hands.  Other runs acquire, return and refresh
    projects at any time; what they do is an arbitrary script. */
module BoskosWalk {

  type Name = string

  /** Stranded: our release of it failed, so it stays in the hold state. */
  datatype Holder = Free | Ours | Others | Stranded

  datatype Project = Project(stamp: int, holder: Holder)

  datatype Pool = Pool(projects: map<Name, Project>, now: int)

  datatype OtherStep =
    | Takes(name: Name)       // another run's acquire
    | Returns(name: Name)     // another run's release
    | Refreshes(name: Name)   // a heartbeat of what another run holds
    | Resets(name: Name)      // another run's reset of a stranded project

  /** Another run's step: it has an effect only on a project in the state it needs. */
  function Other(p: Pool, step: OtherStep): (q: Pool)
    ensures q.projects.Keys == p.projects.Keys && p.now <= q.now
    ensures forall n :: n in p.projects ==>
              if n == step.name && Effective(step, p.projects[n].holder) then
                q.projects[n].stamp > p.now && q.projects[n].holder == (if step.Takes? || step.Refreshes? then Others else Free)
              else q.projects[n] == p.projects[n]
  {
    var n := step.name;
    if n !in p.projects then p
    else
      var h := p.projects[n].holder;
      if step.Takes? && h.Free? then Stamped(p, n, Others)
      else if step.Returns? && h.Others? then Stamped(p, n, Free)
      else if step.Refreshes? && h.Others? then Stamped(p, n, Others)
      else if step.Resets? && h.Stranded? then Stamped(p, n, Free)
      else p
  }

  /** A project another run may take, its holder may refresh or return, or a reset frees. */
  predicate Effective(step: OtherStep, h: Holder) {
    match h
    case Free => step.Takes?
    case Ours => false
    case Others => step.Returns? || step.Refreshes?
    case Stranded => step.Resets?
  }

  function Stamped(p: Pool, n: Name, h: Holder): Pool {
    Pool(p.projects[n := Project(p.now + 1, h)], p.now + 1)
  }

  function OtherRuns(p: Pool, steps: seq<OtherStep>): Pool
    decreases |steps|
  {
    if steps == [] then p else OtherRuns(Other(p, steps[0]), steps[1..])
  }

  /** Other runs step one by one. */
  lemma {:induction false} OtherRunsOneMore(p: Pool, steps: seq<OtherStep>, step: OtherStep)
    ensures OtherRuns(p, []) == p && OtherRuns(p, steps + [step]) == Other(OtherRuns(p, steps), step)
    decreases |steps|
  {
    if steps == [] {
      assert [step][1..] == [];
    } else {
      assert (steps + [step])[1..] == steps[1..] + [step];
      OtherRunsOneMore(Other(p, steps[0]), steps[1..], step);
    }
  }

  ghost predicate WellStamped(p: Pool) {
    forall n :: n in p.projects ==> p.projects[n].stamp <= p.now
  }

  predicate IsFree(p: Pool, n: Name) {
    n in p.projects && p.projects[n].holder.Free?
  }

  /** What Boskos may hand out: a free project no free project is older than. */
  predicate OldestFree(p: Pool, n: Name) {
    IsFree(p, n) && forall m | m in p.projects :: IsFree(p, m) ==> p.projects[n].stamp <= p.projects[m].stamp
  }

  ghost predicate Names(steps: seq<OtherStep>, n: Name) {
    exists i :: 0 <= i < |steps| && steps[i].name == n
  }

  /** No other run touches `n` at any point of the walk. */
  ghost predicate LeftAlone(before: nat -> seq<OtherStep>, during: nat -> seq<OtherStep>, n: Name) {
    forall k: nat :: !Names(before(k), n) && !Names(during(k), n)
  }

  /** Between `p` and `q`: the same projects, every change newly stamped. */
  ghost predicate Moves(p: Pool, q: Pool) {
    && q.projects.Keys == p.projects.Keys && p.now <= q.now && WellStamped(q)
    && forall n :: n in p.projects ==> q.projects[n] == p.projects[n] || q.projects[n].stamp > p.now
  }

  lemma {:induction false} OtherRunsMove(p: Pool, steps: seq<OtherStep>)
    requires WellStamped(p)
    ensures Moves(p, OtherRuns(p, steps))
    ensures forall n :: n in p.projects && !Names(steps, n) ==> OtherRuns(p, steps).projects[n] == p.projects[n]
    decreases |steps|
  {
    if steps != [] {
      var q := Other(p, steps[0]);
      assert Moves(p, q);
      OtherRunsMove(q, steps[1..]);
      forall n | n in p.projects && !Names(steps, n) ensures OtherRuns(p, steps).projects[n] == p.projects[n] {
        assert steps[0].name != n;
      }
    }
  }

  lemma {:induction false} OldestExists(p: Pool, free: set<Name>)
    requires free != {} && free <= p.projects.Keys
    ensures exists n :: n in free && forall m :: m in free ==> p.projects[n].stamp <= p.projects[m].stamp
  {
    var n :| n in free;
    if free != {n} {
      OldestExists(p, free - {n});
      var o :| o in free - {n} && forall m :: m in free - {n} ==> p.projects[o].stamp <= p.projects[m].stamp;
      var best := if p.projects[n].stamp < p.projects[o].stamp then n else o;
      assert forall m :: m in free ==> m == n || m in free - {n};
      assert best in free && forall m :: m in free ==> p.projects[best].stamp <= p.projects[m].stamp;
    }
  }

  /** Distinct names drawn from a pool are no more than its names, and fewer when one is missing. */
  lemma {:induction false} DistinctAtMost(names: seq<Name>, pool: set<Name>)
    requires Distinct(names) && forall i :: 0 <= i < |names| ==> names[i] in pool
    ensures |names| <= |pool|
  {
    if names != [] {
      var last := |names| - 1;
      DistinctAtMost(names[..last], pool - {names[last]});
    }
  }

  lemma {:induction false} SomeMissed(owed: set<Name>, visited: seq<Name>)
    ensures |owed| > |visited| ==> exists n :: n in owed && n !in visited
  {
    if visited != [] && |owed| > |visited| {
      var last := |visited| - 1;
      SomeMissed(owed - {visited[last]}, visited[..last]);
      var n :| n in owed - {visited[last]} && n !in visited[..last];
      assert n in owed && n !in visited;
    }
  }

  /** Every project is free and no other run is about. */
  ghost predicate QuietPool(pool: Pool, before: nat -> seq<OtherStep>, during: nat -> seq<OtherStep>) {
    (forall n :: n in pool.projects ==> IsFree(pool, n)) && forall k: nat :: before(k) == [] && during(k) == []
  }

  lemma QuietPoolIsOwedWhole(pool: Pool, before: nat -> seq<OtherStep>, during: nat -> seq<OtherStep>)
    requires QuietPool(pool, before, during)
    ensures Obliged(pool, before, during) == pool.projects.Keys && |Obliged(pool, before, during)| == |pool.projects|
  {
    assert forall n, k: nat :: !Names(before(k), n) && !Names(during(k), n);
    assert forall n :: LeftAlone(before, during, n);
    assert Obliged(pool, before, during) == pool.projects.Keys;
  }

  ghost predicate VisitedWhole(pool: Pool, visited: seq<Name>) {
    forall n :: n in pool.projects ==> n in visited
  }

  lemma QuietPoolExactly(pool: Pool, before: nat -> seq<OtherStep>, during: nat -> seq<OtherStep>, visited: seq<Name>, bound: nat)
    requires |pool.projects| <= bound ==> forall n :: n in Obliged(pool, before, during) ==> n in visited
    requires |Obliged(pool, before, during)| > bound ==> exists n :: n in Obliged(pool, before, during) && n !in visited
    ensures QuietPool(pool, before, during) ==> (VisitedWhole(pool, visited) <==> |pool.projects| <= bound)
  {
    if QuietPool(pool, before, during) { QuietPoolIsOwedWhole(pool, before, during); }
  }

  ghost predicate Distinct(names: seq<Name>) {
    forall i, j :: 0 <= i < j < |names| ==> names[i] != names[j]
  }

  const MAX_CONSECUTIVE_REPEATS := 3

  /** The last `k` projects taken had each been taken before. */
  predicate EndsInRepeats(taken: seq<Name>, k: nat) {
    k <= |taken| && forall i :: |taken| - k <= i < |taken| ==> taken[i] in taken[..i]
  }

  /** Of those taken, each at its first time. */
  function Firsts(taken: seq<Name>): (f: seq<Name>)
    ensures forall n :: n in f <==> n in taken
  {
    if taken == [] then []
    else
      var last := taken[|taken| - 1];
      assert taken == taken[..|taken| - 1] + [last];
      var f := Firsts(taken[..|taken| - 1]);
      if last in f then f else f + [last]
  }

  lemma RepeatOneMore(taken: seq<Name>, name: Name, k: nat)
    ensures EndsInRepeats(taken + [name], k + 1) <==> name in taken && EndsInRepeats(taken, k)
    ensures EndsInRepeats(taken, 0)
  {
    hide Firsts;
    var next := taken + [name];
    assert next[|taken|] == name && next[..|taken|] == taken;
    forall i | 0 <= i < |taken| ensures next[..i] == taken[..i] && next[i] == taken[i] {
    }
    if EndsInRepeats(next, k + 1) {
      assert name in taken;
      forall i | |taken| - k <= i < |taken| ensures taken[i] in taken[..i] {
        assert next[i] in next[..i];
      }
    }
  }

  /** One more project taken: the repeats in a row go up by one, or start again. */
  lemma TakesOneMore(taken: seq<Name>, name: Name, repeats: nat)
    requires EndsInRepeats(taken, repeats) && !EndsInRepeats(taken, repeats + 1)
    ensures var next, r := taken + [name], if name in taken then repeats + 1 else 0;
            && EndsInRepeats(next, r) && !EndsInRepeats(next, r + 1)
            && Firsts(next) == (if name in taken then Firsts(taken) else Firsts(taken) + [name])
  {
    hide EndsInRepeats;
    RepeatOneMore(taken, name, repeats);
    RepeatOneMore(taken, name, repeats + 1);
    RepeatOneMore(taken, name, 0);
    RepeatOneMore(taken + [name], name, 0);
    assert (taken + [name])[..|taken|] == taken;
  }

  /** The names whose give-back failed. */
  function Unreturned(taken: seq<Name>, released: nat -> bool): (names: set<Name>) {
    set k: nat | k < |taken| && !released(k) :: taken[k]
  }

  lemma ReturnsOneMore(taken: seq<Name>, name: Name, released: nat -> bool)
    ensures Unreturned(taken + [name], released) ==
            if released(|taken|) then Unreturned(taken, released) else Unreturned(taken, released) + {name}
  {
    var next := taken + [name];
    forall n | n in Unreturned(taken, released) ensures n in Unreturned(next, released) {
      var k: nat :| k < |taken| && !released(k) && taken[k] == n;
      assert next[k] == n;
    }
    if !released(|taken|) { assert next[|taken|] == name; }
  }

  /** The record of a walk that has gone on so far: never past three repeats in a row. */
  ghost predicate TakenSo(taken: seq<Name>, visited: seq<Name>, repeats: nat, failures: set<Name>, released: nat -> bool) {
    && visited == Firsts(taken) && failures == Unreturned(taken, released)
    && EndsInRepeats(taken, repeats) && !EndsInRepeats(taken, repeats + 1)
    && forall k :: 0 <= k < |taken| ==> !EndsInRepeats(taken[..k], 3)
  }

  lemma TakenStep(taken: seq<Name>, visited: seq<Name>, repeats: nat, failures: set<Name>, released: nat -> bool, name: Name)
    requires TakenSo(taken, visited, repeats, failures, released) && repeats < 3
    ensures TakenSo(taken + [name], if name in visited then visited else visited + [name],
                    if name in visited then repeats + 1 else 0,
                    if released(|taken|) then failures else failures + {name}, released)
  {
    TakesOneMore(taken, name, repeats);
    ReturnsOneMore(taken, name, released);
    var next := taken + [name];
    assert !EndsInRepeats(taken, 3);
    assert taken == taken[..|taken|];
    forall k | 0 <= k < |next| ensures !EndsInRepeats(next[..k], 3) {
      assert next[..k] == taken[..k];
    }
  }

  lemma TakenEnds(taken: seq<Name>, visited: seq<Name>, repeats: nat, failures: set<Name>, released: nat -> bool)
    requires TakenSo(taken, visited, repeats, failures, released)
    ensures visited == Firsts(taken) && failures == Unreturned(taken, released)
    ensures repeats >= 3 ==> EndsInRepeats(taken, 3)
    ensures forall k :: 0 <= k < |taken| ==> !EndsInRepeats(taken[..k], 3)
  {
  }

  lemma NothingTaken(released: nat -> bool)
    ensures TakenSo([], [], 0, {}, released)
  {
  }

  /** The walk holds no project. */
  ghost predicate NoneOurs(p: Pool) {
    forall n :: n in p.projects ==> !p.projects[n].holder.Ours?
  }

  /** Other runs take nothing the walk holds, and leave it nothing. */
  lemma {:induction false} OthersTakeNothingOfOurs(p: Pool, steps: seq<OtherStep>)
    ensures OtherRuns(p, steps).projects.Keys == p.projects.Keys
    ensures forall n :: n in p.projects && p.projects[n].holder.Ours? ==> OtherRuns(p, steps).projects[n] == p.projects[n]
    ensures forall n :: n in p.projects && !p.projects[n].holder.Ours? ==> !OtherRuns(p, steps).projects[n].holder.Ours?
    decreases |steps|
  {
    if steps != [] { OthersTakeNothingOfOurs(Other(p, steps[0]), steps[1..]); }
  }

  /** Projects the walk is obliged to: free when it starts, and no other run's. */
  ghost function Obliged(pool: Pool, before: nat -> seq<OtherStep>, during: nat -> seq<OtherStep>): set<Name> {
    set n | n in pool.projects && IsFree(pool, n) && LeftAlone(before, during, n)
  }

  /** Nothing obliged has been skipped: while a project is owed, each acquire so far
      gave a new project, and what was visited is now newer than what is owed. */
  ghost predicate OnTrack(start: Pool, pool: Pool, owed: set<Name>, visited: seq<Name>, acquires: nat, repeats: nat) {
    && Distinct(visited)
    && (forall i :: 0 <= i < |visited| ==> visited[i] in pool.projects && pool.projects[visited[i]].stamp > start.now)
    && (forall n :: n in owed && n !in visited ==> n in start.projects && n in pool.projects && pool.projects[n] == start.projects[n])
    && ((|visited| == acquires && repeats == 0) || forall n :: n in owed ==> n in visited)
  }

  /** The pool after one hold of `name`: acquired, kept while others run, given back. */
  function Held(p: Pool, name: Name, during: seq<OtherStep>, released: bool): Pool {
    var kept := OtherRuns(Stamped(p, name, Ours), during);
    Stamped(kept, name, if released then Free else Stranded)
  }

  /** While held a project is nobody else's; given back it is free, and otherwise stranded. */
  lemma HeldEnds(p: Pool, name: Name, during: seq<OtherStep>, released: bool)
    requires name in p.projects
    ensures var kept := OtherRuns(Stamped(p, name, Ours), during).projects; name in kept && kept[name].holder == Ours
    ensures Held(p, name, during, released).projects[name].holder == (if released then Free else Stranded)
    ensures NoneOurs(p) ==> NoneOurs(Held(p, name, during, released))
  {
    OthersTakeNothingOfOurs(Stamped(p, name, Ours), during);
  }

  lemma HeldMoves(p: Pool, name: Name, during: seq<OtherStep>, released: bool)
    requires WellStamped(p) && name in p.projects
    ensures Moves(p, Held(p, name, during, released))
    ensures Held(p, name, during, released).projects[name].stamp > p.now
    ensures forall n :: n in p.projects && n != name && !Names(during, n) ==>
              Held(p, name, during, released).projects[n] == p.projects[n]
  {
    OtherRunsMove(Stamped(p, name, Ours), during);
  }

  /** Boskos's side of an acquire. */
  method Acquire(p: Pool) returns (found: bool, name: Name)
    ensures found ==> OldestFree(p, name) && name in p.projects && p.projects[name].holder == Free
    ensures !found ==> (forall n :: !IsFree(p, n)) && forall n :: n in p.projects ==> p.projects[n].holder != Free
  {
    var free := set n | n in p.projects && IsFree(p, n);
    if free == {} {
      assert forall n :: IsFree(p, n) ==> n in free;
      assert forall n :: n in p.projects && p.projects[n].holder == Free ==> n in free;
      return false, "";
    }
    OldestExists(p, free);
    name :| name in free && forall m | m in free :: p.projects[name].stamp <= p.projects[m].stamp;
    assert forall m | m in p.projects :: IsFree(p, m) ==> m in free;
    found := true;
  }

  lemma OthersKeepTrack(start: Pool, pool: Pool, owed: set<Name>, visited: seq<Name>, acquires: nat, repeats: nat, steps: seq<OtherStep>)
    requires OnTrack(start, pool, owed, visited, acquires, repeats) && WellStamped(pool) && start.now <= pool.now
    requires forall n :: n in owed ==> !Names(steps, n)
    ensures OnTrack(start, OtherRuns(pool, steps), owed, visited, acquires, repeats)
  {
    OtherRunsMove(pool, steps);
  }

  /** While a project is owed, the oldest free project has not been visited. */
  lemma OldestIsNew(start: Pool, pool: Pool, owed: set<Name>, visited: seq<Name>, acquires: nat, repeats: nat, name: Name, n: Name)
    requires OnTrack(start, pool, owed, visited, acquires, repeats) && WellStamped(start)
    requires n in owed && n !in visited && IsFree(start, n) && OldestFree(pool, name)
    ensures name !in visited
  {
    assert IsFree(pool, n);
  }

  /** One more hold, of a project seen before or of a new one. */
  lemma HoldKeepsTrack(start: Pool, pool: Pool, owed: set<Name>, visited: seq<Name>, acquires: nat, repeats: nat,
                       name: Name, during: seq<OtherStep>, released: bool)
    requires OnTrack(start, pool, owed, visited, acquires, repeats)
    requires WellStamped(start) && WellStamped(pool) && start.now <= pool.now && OldestFree(pool, name)
    requires forall n :: n in owed ==> IsFree(start, n) && !Names(during, n)
    ensures var next := Held(pool, name, during, released);
            && (name in visited ==> OnTrack(start, next, owed, visited, acquires + 1, repeats + 1))
            && (name !in visited ==> OnTrack(start, next, owed, visited + [name], acquires + 1, 0))
  {
    HeldMoves(pool, name, during, released);
    if n :| n in owed && n !in visited {
      OldestIsNew(start, pool, owed, visited, acquires, repeats, name, n);
    }
    if name !in visited {
      var v' := visited + [name];
      assert forall n :: n in v' <==> n in visited || n == name;
    }
  }

  /** An owed project is still free, so a pool with none free owes nothing. */
  lemma NoneFreeNoneOwed(start: Pool, pool: Pool, owed: set<Name>, visited: seq<Name>, acquires: nat, repeats: nat)
    requires OnTrack(start, pool, owed, visited, acquires, repeats)
    requires (forall n :: n in owed ==> IsFree(start, n)) && forall n :: !IsFree(pool, n)
    ensures forall n :: n in owed ==> n in visited
  {
    assert forall n :: n in owed && n !in visited ==> IsFree(pool, n);
  }

  /** A walk under way: its pool is a later state of the one it started from. */
  ghost predicate Walking(start: Pool, owed: set<Name>, pool: Pool, visited: seq<Name>, acquires: nat, repeats: nat) {
    && WellStamped(start) && WellStamped(pool) && start.now <= pool.now && pool.projects.Keys == start.projects.Keys
    && (forall n :: n in owed ==> IsFree(start, n)) && (NoneOurs(start) ==> NoneOurs(pool))
    && OnTrack(start, pool, owed, visited, acquires, repeats) && |visited| <= acquires
  }

  lemma NothingPlayed(start: Pool, before: nat -> seq<OtherStep>, during: nat -> seq<OtherStep>, released: nat -> bool)
    ensures TookOldest(start, [], before, during, released) && PoolAfter(start, [], before, during, released) == start
  {
  }

  lemma StartsWalking(start: Pool, before: nat -> seq<OtherStep>, during: nat -> seq<OtherStep>)
    requires WellStamped(start)
    ensures Walking(start, Obliged(start, before, during), start, [], 0, 0)
  {
  }

  lemma OthersStep(start: Pool, before: nat -> seq<OtherStep>, during: nat -> seq<OtherStep>,
                   pool: Pool, visited: seq<Name>, acquires: nat, repeats: nat)
    requires Walking(start, Obliged(start, before, during), pool, visited, acquires, repeats)
    ensures Walking(start, Obliged(start, before, during), OtherRuns(pool, before(acquires)), visited, acquires, repeats)
  {
    OtherRunsMove(pool, before(acquires));
    OthersTakeNothingOfOurs(pool, before(acquires));
    OthersKeepTrack(start, pool, Obliged(start, before, during), visited, acquires, repeats, before(acquires));
  }

  lemma HoldStep(start: Pool, before: nat -> seq<OtherStep>, during: nat -> seq<OtherStep>,
                 pool: Pool, visited: seq<Name>, acquires: nat, repeats: nat, name: Name, released: bool)
    requires Walking(start, Obliged(start, before, during), pool, visited, acquires, repeats) && OldestFree(pool, name)
    ensures var next, owed := Held(pool, name, during(acquires), released), Obliged(start, before, during);
            && (name in visited ==> Walking(start, owed, next, visited, acquires + 1, repeats + 1))
            && (name !in visited ==> Walking(start, owed, next, visited + [name], acquires + 1, 0))
  {
    HeldMoves(pool, name, during(acquires), released);
    HeldEnds(pool, name, during(acquires), released);
    HoldKeepsTrack(start, pool, Obliged(start, before, during), visited, acquires, repeats, name, during(acquires), released);
  }

  /** What holds of a walk that stops, for want of a free project or otherwise. */
  lemma WalkEnds(start: Pool, owed: set<Name>, pool: Pool, visited: seq<Name>, acquires: nat, repeats: nat)
    requires Walking(start, owed, pool, visited, acquires, repeats)
    ensures Distinct(visited) && (forall i :: 0 <= i < |visited| ==> visited[i] in start.projects) && |visited| <= acquires
    ensures NoneOurs(start) ==> NoneOurs(pool)
    ensures |owed| > acquires ==> exists n :: n in owed && n !in visited
    ensures (forall n :: !IsFree(pool, n)) || |start.projects| <= acquires || repeats > 0 ==>
              forall n :: n in owed ==> n in visited
  {
    SomeMissed(owed, visited);
    if forall n :: !IsFree(pool, n) {
      NoneFreeNoneOwed(start, pool, owed, visited, acquires, repeats);
    } else if |start.projects| <= acquires || repeats > 0 {
      NothingOwedAtTheEnd(start, pool, owed, visited, acquires, repeats);
    }
  }

  /** The walk cannot stop with a project owed: not by running out of acquires, and
      not by repeats. */
  lemma NothingOwedAtTheEnd(start: Pool, pool: Pool, owed: set<Name>, visited: seq<Name>, acquires: nat, repeats: nat)
    requires OnTrack(start, pool, owed, visited, acquires, repeats)
    requires (pool.projects.Keys == start.projects.Keys && |start.projects| <= acquires) || repeats > 0
    ensures forall n :: n in owed ==> n in visited
  {
    if n :| n in owed && n !in visited {
      DistinctAtMost(visited, pool.projects.Keys - {n});
    }
  }

  /** The pool after the holds of `taken`, with what other runs do around each. */
  function PoolAfter(start: Pool, taken: seq<Name>, before: nat -> seq<OtherStep>, during: nat -> seq<OtherStep>, released: nat -> bool): Pool {
    if taken == [] then start
    else
      var k := |taken| - 1;
      Held(OtherRuns(PoolAfter(start, taken[..k], before, during, released), before(k)), taken[k], during(k), released(k))
  }

  /** Each of `taken` was a free project none was older than when it was taken. */
  ghost predicate TookOldest(start: Pool, taken: seq<Name>, before: nat -> seq<OtherStep>, during: nat -> seq<OtherStep>, released: nat -> bool) {
    forall k :: 0 <= k < |taken| ==>
      OldestFree(OtherRuns(PoolAfter(start, taken[..k], before, during, released), before(k)), taken[k])
  }

  lemma TakesOldest(start: Pool, taken: seq<Name>, before: nat -> seq<OtherStep>, during: nat -> seq<OtherStep>, released: nat -> bool, name: Name)
    requires TookOldest(start, taken, before, during, released)
    requires OldestFree(OtherRuns(PoolAfter(start, taken, before, during, released), before(|taken|)), name)
    ensures TookOldest(start, taken + [name], before, during, released)
    ensures PoolAfter(start, taken + [name], before, during, released) ==
            Held(OtherRuns(PoolAfter(start, taken, before, during, released), before(|taken|)), name, during(|taken|), released(|taken|))
  {
    hide OldestFree, OtherRuns, Held;
    var next := taken + [name];
    assert next[..|taken|] == taken;
    forall k | 0 <= k < |taken|
      ensures OldestFree(OtherRuns(PoolAfter(start, next[..k], before, during, released), before(k)), next[k])
    {
      assert next[..k] == taken[..k];
    }
  }

  /** The loop of `walk`, up to where it stops. */
  method WalkOn(start: Pool, bound: nat, before: nat -> seq<OtherStep>, during: nat -> seq<OtherStep>, released: nat -> bool)
    returns (visited: seq<Name>, acquires: nat, taken: seq<Name>, failures: set<Name>, pool: Pool, repeats: nat)
    requires WellStamped(start)
    ensures Walking(start, Obliged(start, before, during), pool, visited, acquires, repeats)
    ensures |taken| == acquires <= bound && TakenSo(taken, visited, repeats, failures, released)
    ensures TookOldest(start, taken, before, during, released)
    ensures || (pool == PoolAfter(start, taken, before, during, released) && (acquires == bound || repeats >= MAX_CONSECUTIVE_REPEATS))
            || (pool == OtherRuns(PoolAfter(start, taken, before, during, released), before(acquires)) && forall n :: !IsFree(pool, n))
  {
    hide OtherRuns, Held, Obliged, LeftAlone, Walking, OldestFree, Distinct, QuietPool, VisitedWhole,
      NoneOurs, EndsInRepeats, Firsts, Unreturned, TakenSo, WellStamped, IsFree, TookOldest, PoolAfter;
    ghost var owed := Obliged(start, before, during);
    var seen := {};
    visited, acquires, taken, failures, pool, repeats := [], 0, [], {}, start, 0;
    assert TookOldest(start, taken, before, during, released) && pool == PoolAfter(start, taken, before, during, released) by { NothingPlayed(start, before, during, released); }
    assert TakenSo(taken, visited, repeats, failures, released) by { NothingTaken(released); }
    assert Walking(start, owed, pool, visited, acquires, repeats) by { StartsWalking(start, before, during); }
    while acquires < bound
      invariant acquires <= bound
      invariant forall n :: n in seen <==> n in visited
      invariant Walking(start, owed, pool, visited, acquires, repeats)
      invariant repeats < MAX_CONSECUTIVE_REPEATS
      invariant TookOldest(start, taken, before, during, released) && pool == PoolAfter(start, taken, before, during, released)
      invariant |taken| == acquires && TakenSo(taken, visited, repeats, failures, released)
    {
      OthersStep(start, before, during, pool, visited, acquires, repeats);
      pool := OtherRuns(pool, before(acquires));
      var found, name := Acquire(pool);
      if !found { return; }
      HoldStep(start, before, during, pool, visited, acquires, repeats, name, released(acquires));
      pool := Held(pool, name, during(acquires), released(acquires));
      TakesOldest(start, taken, before, during, released, name);
      TakenStep(taken, visited, repeats, failures, released, name);
      if !released(acquires) { failures := failures + {name}; }
      taken := taken + [name];
      acquires := acquires + 1;
      if name in seen {
        repeats := repeats + 1;
      } else {
        repeats := 0;
        seen := seen + {name};
        visited := visited + [name];
      }
      if repeats >= MAX_CONSECUTIVE_REPEATS { return; }
    }
  }


  /** `walk`: `before(k)` and `during(k)` are what other runs do around its k-th hold, and
      `released(k)` whether giving that project back succeeded. */
  method Walk(start: Pool, poolSize: nat, before: nat -> seq<OtherStep>, during: nat -> seq<OtherStep>, released: nat -> bool)
    returns (visited: seq<Name>, acquires: nat, taken: seq<Name>, failures: set<Name>, pool: Pool)
    requires WellStamped(start)
    // What is visited is what was taken, each at its first time; a failed give-back is reported.
    ensures |taken| == acquires && visited == Firsts(taken) && failures == Unreturned(taken, released)
    ensures NoneOurs(start) ==> NoneOurs(pool)
    // It stops out of tries, after three repeats in a row or with nothing free, and not before.
    ensures acquires == 2 * poolSize + 3 || EndsInRepeats(taken, 3) || forall n :: !IsFree(pool, n)
    // The pool is what these holds and the other runs make of it, each hold of a free project none is older than.
    ensures TookOldest(start, taken, before, during, released)
    ensures pool == PoolAfter(start, taken, before, during, released) || pool == OtherRuns(PoolAfter(start, taken, before, during, released), before(acquires))
    ensures forall k :: 0 <= k < acquires ==> !EndsInRepeats(taken[..k], 3)
    ensures Distinct(visited) && forall i :: 0 <= i < |visited| ==> visited[i] in start.projects
    ensures |visited| <= acquires <= 2 * poolSize + 3
    // Coverage, whenever the pool is no larger than the walk's own bound.
    ensures |start.projects| <= 2 * poolSize + 3 ==>
              forall n :: n in Obliged(start, before, during) ==> n in visited
    // The bound is exact: a walk obliged to more projects than that misses one.
    ensures |Obliged(start, before, during)| > 2 * poolSize + 3 ==>
              exists n :: n in Obliged(start, before, during) && n !in visited
    // So a quiet pool is visited whole exactly when it is within the bound.
    ensures QuietPool(start, before, during) ==>
              (VisitedWhole(start, visited) <==> |start.projects| <= 2 * poolSize + 3)
  {
    hide OtherRuns, Held, Obliged, LeftAlone, Walking, OldestFree, Distinct, QuietPool, VisitedWhole,
      NoneOurs, EndsInRepeats, Firsts, Unreturned, TakenSo, WellStamped, IsFree, TookOldest, PoolAfter;
    var bound, repeats := 2 * poolSize + MAX_CONSECUTIVE_REPEATS, 0;
    visited, acquires, taken, failures, pool, repeats := WalkOn(start, bound, before, during, released);
    TakenEnds(taken, visited, repeats, failures, released);
    WalkEnds(start, Obliged(start, before, during), pool, visited, acquires, repeats);
    QuietPoolExactly(start, before, during, visited, bound);
  }
}
