/** Pausing the scheduled audits for an eval run and resuming them
    (hack/ci_pause_scheduled_audits.py).

    A run can be killed between any two steps, any command can fail with or without
    having taken effect, and any read or write can fail, each as a free choice, unless
    `calm` holds; a `steady` host is not killed and reads its files back, while commands may
    still fail.  Other writers may rewrite the roster at any time unless `alone` holds. */
module PauseAudits {
  import opened Options

  type Id = string

  datatype Job = Job(state: string, pausedAt: string, enabled: bool)

  const PAUSED_STATE := "paused"
  const PAUSE_ROUNDS := 4

  /** A pause marker alone is a pause, whatever `enabled` says. */
  predicate Paused(j: Job) {
    j.state == PAUSED_STATE || j.pausedAt != ""
  }

  predicate ShowsPaused(roster: map<Id, Job>, id: Id) {
    id in roster && Paused(roster[id])
  }

  function PausedIds(roster: map<Id, Job>): set<Id> {
    set id | id in roster && Paused(roster[id])
  }

  /** What a run exits with; Cut: it was killed or an error left it. */
  datatype Exit = OK | RETRY | DECIDED | Cut

  /** How a hermes command ends: it reports success, is refused or cannot start, or times out. */
  datatype Answer = Answered | Refused | TimedOut

  /** One `hermes cron pause|resume`, with the record on disk when it was made. */
  datatype Call = Call(pauses: bool, id: Id, record: Option<set<Id>>, answer: Answer)

  function Unanswered(calls: seq<Call>): set<Id> {
    set c | c in calls && !c.answer.Answered? :: c.id
  }

  predicate SomeTimedOut(calls: seq<Call>) {
    exists c | c in calls :: c.answer.TimedOut?
  }

  lemma MoreCalls(a: seq<Call>, b: seq<Call>)
    ensures Unanswered(a + b) == Unanswered(a) + Unanswered(b)
    ensures SomeTimedOut(a + b) <==> SomeTimedOut(a) || SomeTimedOut(b)
  {
    assert forall c :: c in a + b <==> c in a || c in b;
  }

  /** The calls made since there were `n`, when `mid` are those made up to some point. */
  lemma CallsSince(n: nat, mid: seq<Call>, all: seq<Call>)
    requires n <= |mid| && mid <= all
    ensures Unanswered(all[n..]) == Unanswered(mid[n..]) + Unanswered(all[|mid|..])
    ensures SomeTimedOut(all[n..]) <==> SomeTimedOut(mid[n..]) || SomeTimedOut(all[|mid|..])
  {
    assert all[n..] == mid[n..] + all[|mid|..];
    MoreCalls(mid[n..], all[|mid|..]);
  }

  lemma OneCallSince(n: nat, mid: seq<Call>, c: Call)
    requires n <= |mid|
    ensures Unanswered((mid + [c])[n..]) == if c.answer.Answered? then Unanswered(mid[n..]) else Unanswered(mid[n..]) + {c.id}
    ensures SomeTimedOut((mid + [c])[n..]) <==> SomeTimedOut(mid[n..]) || c.answer.TimedOut?
  {
    CallsSince(n, mid, mid + [c]);
    assert (mid + [c])[|mid|..] == [c];
  }

  /** The three exits, by what the commands said and what the store shows. */
  lemma ExitMeans(targets: set<Id>, read: map<Id, Job>, unanswered: set<Id>, timedOut: bool)
    ensures var exit := ExitFor(unanswered, timedOut, Missing(targets, read, unanswered));
            && (exit == OK <==> unanswered == {} && AllPaused(read, targets))
            && (exit == DECIDED <==>
                  unanswered != {} && !timedOut && forall k :: k in targets ==> ShowsPaused(read, k) || k in unanswered)
            && (exit == RETRY <==> exit != OK && exit != DECIDED)
  {
    NothingMissing(targets, read, unanswered);
  }

  lemma NoCalls(calls: seq<Call>)
    ensures Unanswered(calls[|calls|..]) == {} && !SomeTimedOut(calls[|calls|..])
  {
  }

  /** What a read does not show paused, apart from what was not answered. */
  function Missing(targets: set<Id>, read: map<Id, Job>, unanswered: set<Id>): set<Id> {
    set id | id in targets && !ShowsPaused(read, id) && id !in unanswered
  }

  lemma NothingMissing(targets: set<Id>, read: map<Id, Job>, unanswered: set<Id>)
    ensures Missing(targets, read, unanswered) <= targets
    ensures forall k :: k in targets && k !in Missing(targets, read, unanswered) && k !in unanswered ==> ShowsPaused(read, k)
  {
  }

  /** What a run that was not cut exits with: OK when every command was answered and the store
      shows what was asked; worth another try when one timed out, or when the store does not
      show a command that was answered; decided otherwise. */
  function ExitFor(unanswered: set<Id>, timedOut: bool, missing: set<Id>): Exit {
    if unanswered == {} && missing == {} then OK else if timedOut || missing != {} then RETRY else DECIDED
  }

  ghost predicate OnRecord(c: Call) {
    c.record.Some? && c.id in c.record.value
  }

  /** What a run pauses: enabled, unpaused jobs the image ships, except plumbing and
      the audits the first-run stage starts. */
  function Targets(roster: map<Id, Job>, shipped: map<Id, bool>, stage: set<Id>): set<Id> {
    set id | id in roster && id in shipped && !shipped[id] && id !in stage && !Paused(roster[id]) && roster[id].enabled
  }

  /** What `read_record` gives: nothing when there is no record or it cannot be read. */
  function ReadRecord(record: Option<set<Id>>, readable: bool): set<Id> {
    if record.Some? && readable then record.value else {}
  }

  function Ids(record: Option<set<Id>>): set<Id> {
    if record.Some? then record.value else {}
  }

  /** What the store must have shown, read after each round, for a pause to count: clean
      at the last read, and at the one before it unless there was no further round. */
  ghost predicate ReadClean(seen: seq<map<Id, Job>>, targets: set<Id>) {
    && 0 < |seen| <= 4 && AllPaused(seen[|seen| - 1], targets)
    && (targets == {} || |seen| == 4 || (|seen| > 1 && AllPaused(seen[|seen| - 2], targets)))
  }

  ghost predicate AllPaused(roster: map<Id, Job>, ids: set<Id>) {
    forall k :: k in ids ==> ShowsPaused(roster, k)
  }

  datatype Snapshot = Snapshot(roster: map<Id, Job>, record: Option<set<Id>>)

  /** Every job paused since `original` is on record or in `lost`, what is lost is paused
      and on no record, and all of `original` is still paused and not on record. */
  ghost predicate Accounted(original: set<Id>, lost: set<Id>, s: Snapshot) {
    && original + lost <= PausedIds(s.roster) <= original + lost + Ids(s.record)
    && original !! Ids(s.record) && lost !! Ids(s.record) && original !! lost
  }

  /** The recorded jobs that are paused: what a pause forgets when it replaces a record it
      could not read. */
  function Dropped(s: Snapshot): set<Id> {
    Ids(s.record) * PausedIds(s.roster)
  }

  datatype RunKind = PauseRun | ResumeRun

  /** A run, and whether it can read the record if there is one. */
  datatype Run = Run(kind: RunKind, readable: bool)

  /** The run was a pause that replaced a record it could not read while a recorded job was
      paused. */
  predicate Forgets(run: Run, before: Snapshot, after: Snapshot) {
    run.kind.PauseRun? && !run.readable && after.record != before.record && Dropped(before) != {}
  }

  /** What is lost after a run. */
  function LostAfter(lost: set<Id>, run: Run, before: Snapshot, after: Snapshot): set<Id> {
    if Forgets(run, before, after) then lost + Dropped(before) else lost
  }

  /** What a run may do on a host with no other writer: which jobs it changes and how, what
      becomes of the record, and what it has done when it reports OK. */
  ghost predicate Performs(run: Run, shipped: map<Id, bool>, stage: set<Id>, before: Snapshot, after: Snapshot, exit: Exit) {
    var read, targets := ReadRecord(before.record, run.readable), Targets(before.roster, shipped, stage);
    && after.roster.Keys == before.roster.Keys
    && match run.kind
       case PauseRun =>
         && (after.record == before.record || (targets != {} && after.record == Some(read + targets)))
         && (forall k :: k in after.roster ==>
               || after.roster[k] == before.roster[k]
               || (Paused(after.roster[k]) && !Paused(before.roster[k]) && k in Ids(after.record)))
         && (exit == OK ==> AllPaused(after.roster, targets) && targets <= Ids(after.record))
       case ResumeRun =>
         && (after.record == before.record || (after.record == None && (exit == OK || exit == Cut)))
         && (forall k :: k in after.roster ==>
               after.roster[k] == before.roster[k] || (!Paused(after.roster[k]) && k in read))
         && (exit == OK || after.record != before.record ==> forall k :: k in read ==> !ShowsPaused(after.roster, k))
         && (exit == OK && read != {} ==> after.record == None)
         && (read == {} ==> exit == OK && after == before)
  }

  /** What a pause run does to the jobs and the record keeps the account. */
  lemma PauseKeepsAccount(original: set<Id>, lost: set<Id>, before: Snapshot, after: Snapshot, targets: set<Id>, readable: bool)
    requires Accounted(original, lost, before)
    requires after.record == before.record || Ids(after.record) == ReadRecord(before.record, readable) + targets
    requires targets !! PausedIds(before.roster)
    requires after.roster.Keys == before.roster.Keys
    requires forall k :: k in after.roster ==>
      || after.roster[k] == before.roster[k]
      || (Paused(after.roster[k]) && !Paused(before.roster[k]) && k in Ids(after.record))
    ensures Accounted(original, LostAfter(lost, Run(PauseRun, readable), before, after), after)
  {
    forall k | k in PausedIds(after.roster) ensures k in PausedIds(before.roster) || k in Ids(after.record) {
    }
    forall k | k in PausedIds(before.roster) ensures k in PausedIds(after.roster) {
    }
  }

  /** So does a resume run, and one that reports OK, having read the record, leaves paused
      only what was paused at the start and what is lost. */
  lemma ResumeKeepsAccount(original: set<Id>, lost: set<Id>, before: Snapshot, after: Snapshot, ok: bool, readable: bool)
    requires Accounted(original, lost, before)
    requires after.record == before.record ||
      (after.record == None && forall k :: k in ReadRecord(before.record, readable) ==> !ShowsPaused(after.roster, k))
    requires after.roster.Keys == before.roster.Keys
    requires forall k :: k in after.roster ==>
      after.roster[k] == before.roster[k] || (!Paused(after.roster[k]) && k in ReadRecord(before.record, readable))
    requires ok ==> forall k :: k in ReadRecord(before.record, readable) ==> !ShowsPaused(after.roster, k)
    requires !readable ==> after == before
    ensures Accounted(original, lost, after)
    ensures ok && readable ==> PausedIds(after.roster) == original + lost
  {
    forall k | k in PausedIds(after.roster) ensures k in PausedIds(before.roster) {
    }
    forall k | k in original + lost ensures k in PausedIds(after.roster) {
      assert k in PausedIds(before.roster);
    }
    if readable && (ok || after.record != before.record) {
      forall k | k in PausedIds(after.roster) ensures k !in Ids(before.record) {
        assert ShowsPaused(after.roster, k);
      }
    }
  }

  class Host {
    const alone: bool
    const calm: bool
    /** Files can be read back and no run is killed; commands may still fail. */
    const steady: bool
    /** Jobs the image ships, with their `no_agent` flag. */
    const shipped: map<Id, bool>
    const stage: set<Id>
    var roster: map<Id, Job>
    var record: Option<set<Id>>
    var calls: seq<Call>

    constructor (alone: bool, calm: bool, steady: bool, shipped: map<Id, bool>, stage: set<Id>, roster: map<Id, Job>)
      ensures this.alone == alone && this.calm == calm && this.steady == steady && this.shipped == shipped && this.stage == stage
      ensures this.roster == roster && record == None && calls == []
    {
      this.alone, this.calm, this.steady, this.shipped, this.stage := alone, calm, steady, shipped, stage;
      this.roster, record, calls := roster, None, [];
    }

    /** Whether something goes wrong here: never on a calm host. */
    method Mishap() returns (happens: bool)
      ensures calm ==> !happens
    {
      happens := *;
      if calm { happens := false; }
    }

    /** Whether a file cannot be read back or the run is killed. */
    method Loss() returns (happens: bool)
      ensures calm || steady ==> !happens
    {
      happens := *;
      if calm || steady { happens := false; }
    }

    /** Between two steps: other writers act, and the run may be killed. */
    method Boundary() returns (killed: bool)
      modifies this`roster
      ensures alone ==> roster == old(roster)
      ensures calm || steady ==> !killed
    {
      if !alone { roster := *; }
      killed := Loss();
    }

    /** One hermes command: it may or may not take effect, whatever it reports. */
    method Hermes(pauses: bool, id: Id) returns (killed: bool, answer: Answer)
      modifies this`roster, this`calls
      ensures calls == old(calls) + [Call(pauses, id, record, answer)]
      ensures alone ==> roster.Keys == old(roster).Keys
      ensures alone ==> forall k :: k in roster && k != id ==> roster[k] == old(roster)[k]
      ensures alone && id in roster ==> roster[id] == old(roster)[id] || Paused(roster[id]) == pauses == !roster[id].enabled
      ensures calm ==> answer == Answered
      ensures calm || steady ==> !killed
      ensures calm && alone && id in roster ==> Paused(roster[id]) == pauses
    {
      var noEffect := Mishap();
      var stamp: string := *;
      if id in roster && !noEffect {
        roster := roster[id := if pauses then Job(PAUSED_STATE, stamp, false) else Job("scheduled", "", true)];
      }
      answer := Answered;
      var timesOut := Mishap();
      var refuses := Mishap();
      if timesOut { answer := TimedOut; } else if refuses { answer := Refused; }
      calls := calls + [Call(pauses, id, record, answer)];
      killed := Boundary();
    }

    /** The pauses of one round. */
    method PauseEach(pending: set<Id>, failedIds: set<Id>) returns (killed: bool, retryable: bool, failed: set<Id>)
      requires pending <= Ids(record)
      modifies this`roster, this`calls
      ensures old(calls) <= calls && forall i :: |old(calls)| <= i < |calls| ==> OnRecord(calls[i]) && calls[i].pauses && calls[i].id in pending
      ensures alone ==> roster.Keys == old(roster).Keys
      ensures alone ==> forall k :: k in roster && k !in pending ==> roster[k] == old(roster)[k]
      ensures alone ==> forall k :: k in roster && k in pending ==> roster[k] == old(roster)[k] || Paused(roster[k])
      ensures failedIds <= failed <= failedIds + pending
      ensures failed == failedIds + Unanswered(calls[|old(calls)|..]) && (retryable <==> SomeTimedOut(calls[|old(calls)|..]))
      ensures calm ==> !killed && !retryable && failed == failedIds
      ensures steady ==> !killed
      ensures calm && alone ==> forall k :: k in roster && k in pending ==> Paused(roster[k])
    {
      hide Unanswered, SomeTimedOut;
      NoCalls(calls);
      var left := pending;
      killed, retryable, failed := false, false, failedIds;
      while left != {} && !killed
        invariant left <= pending && failedIds <= failed <= failedIds + pending
        invariant old(calls) <= calls && forall i :: |old(calls)| <= i < |calls| ==> OnRecord(calls[i]) && calls[i].pauses && calls[i].id in pending
        invariant alone ==> roster.Keys == old(roster).Keys
        invariant alone ==> forall k :: k in roster && k !in pending ==> roster[k] == old(roster)[k]
        invariant alone ==> forall k :: k in roster && k in pending ==> roster[k] == old(roster)[k] || Paused(roster[k])
        invariant failed == failedIds + Unanswered(calls[|old(calls)|..]) && (retryable <==> SomeTimedOut(calls[|old(calls)|..]))
        invariant calm ==> !killed && !retryable && failed == failedIds
        invariant steady ==> !killed
        invariant calm && alone ==> forall k :: k in roster && k in pending && k !in left ==> Paused(roster[k])
        decreases left
      {
        var id :| id in left;
        left := left - {id};
        ghost var before := calls;
        var answer;
        killed, answer := Hermes(true, id);
        OneCallSince(|old(calls)|, before, calls[|before|]);
        retryable := retryable || answer.TimedOut?;
        if !answer.Answered? { failed := failed + {id}; }
      }
    }
  
    /** The loop over the roster that sorts out what to pause. */
    method SelectTargets() returns (targets: set<Id>)
      ensures targets == Targets(roster, shipped, stage)
    {
      targets := {};
      var left := roster.Keys;
      while left != {}
        invariant left <= roster.Keys && targets == Targets(roster, shipped, stage) - left
        decreases left
      {
        var id :| id in left;
        left := left - {id};
        if id !in shipped {
        } else if shipped[id] {
        } else if id in stage {
        } else if Paused(roster[id]) {
        } else if !roster[id].enabled {
        } else {
          targets := targets + {id};
        }
      }
    }

    /** `pause`.  `readable`: whether the record, if there is one, can be read; `inputs`: whether
        the roster, the image's roster and the stage can; `writes`: whether the record can be written. */
    method Pause(readable: bool, inputs: bool, writes: bool) returns (exit: Exit, ghost seen: seq<map<Id, Job>>)
      modifies this
      // hermes is asked to pause a job only once the job is on the durable record.
      ensures old(calls) <= calls && forall i :: |old(calls)| <= i < |calls| ==> OnRecord(calls[i]) && calls[i].pauses
      ensures record == old(record) ||
        (Targets(old(roster), shipped, stage) != {} &&
         record == Some(ReadRecord(old(record), readable) + Targets(old(roster), shipped, stage)))
      ensures exit == OK ==> Targets(old(roster), shipped, stage) <= Ids(record)
      ensures alone ==> roster.Keys == old(roster).Keys
      ensures alone ==> forall k :: k in roster ==>
                roster[k] == old(roster)[k] || (Paused(roster[k]) && !Paused(old(roster)[k]) && k in Ids(record))
      ensures alone && exit == OK ==> AllPaused(roster, Targets(old(roster), shipped, stage))
      // First-run audits, plumbing, jobs the image does not ship, disabled jobs and jobs with a marker are left alone.
      ensures forall i :: |old(calls)| <= i < |calls| ==>
        calls[i].id in shipped && !shipped[calls[i].id] && calls[i].id !in stage
      ensures alone ==> forall k :: k in roster && (!old(roster)[k].enabled || old(roster)[k].state == "paused" || old(roster)[k].pausedAt != "") ==>
        roster[k] == old(roster)[k]
      // Whoever else writes, a pause that reports OK read its targets paused, twice or on the last round.
      ensures exit == OK ==> ReadClean(seen, Targets(old(roster), shipped, stage))
      // What it exits with: a run without its inputs is decided and does nothing; one that cannot
      // write its record is worth another try; else as its commands and its last read say.
      ensures !inputs ==> exit == DECIDED && roster == old(roster) && record == old(record) && calls == old(calls)
      ensures inputs && !writes && Targets(old(roster), shipped, stage) != {} ==>
        (exit == RETRY || exit == Cut) && record == old(record) && calls == old(calls)
      ensures exit == DECIDED && inputs ==> Unanswered(calls[|old(calls)|..]) != {} && !SomeTimedOut(calls[|old(calls)|..])
      ensures steady && inputs && (writes || Targets(old(roster), shipped, stage) == {}) ==>
        var made, targets := calls[|old(calls)|..], Targets(old(roster), shipped, stage);
        && seen != []
        && exit == ExitFor(Unanswered(made), SomeTimedOut(made), Missing(targets, seen[|seen| - 1], Unanswered(made)))
      // When nothing goes wrong it reports OK, with its targets added to what the record was read as.
      ensures calm && alone && inputs && writes ==> exit == OK
      ensures calm && inputs && writes && Targets(old(roster), shipped, stage) != {} ==>
        record == Some(ReadRecord(old(record), readable) + Targets(old(roster), shipped, stage))
    {
      hide Unanswered, SomeTimedOut, Missing;
      seen := [];
      if !inputs { return DECIDED, seen; }
      var targets := SelectTargets();
      var killed := Boundary();
      if killed { return Cut, seen; }
      if targets != {} {
        if !writes { return RETRY, seen; }
        record := Some(ReadRecord(record, readable) + targets);
      }
      killed := Boundary();
      if killed { return Cut, seen; }
      exit, seen := PauseRounds(targets);
    }

    /** One round: pause what is pending, then read the store back. */
    method PauseRound(targets: set<Id>, pending: set<Id>, failedIds: set<Id>)
      returns (ended: Option<Exit>, retryable: bool, failed: set<Id>, left: set<Id>, ghost read: map<Id, Job>)
      requires targets <= Ids(record) && pending <= targets && failedIds <= targets
      modifies this`roster, this`calls
      ensures old(calls) <= calls && forall i :: |old(calls)| <= i < |calls| ==> OnRecord(calls[i]) && calls[i].pauses && calls[i].id in targets
      ensures alone ==> roster.Keys == old(roster).Keys
      ensures alone ==> forall k :: k in roster ==> roster[k] == old(roster)[k] || (Paused(roster[k]) && k in targets)
      ensures failedIds <= failed <= targets
      ensures failed == failedIds + Unanswered(calls[|old(calls)|..]) && (retryable <==> SomeTimedOut(calls[|old(calls)|..]))
      ensures ended.Some? ==> ended == Some(Cut) || ended == Some(RETRY)
      ensures steady ==> ended.None?
      ensures ended.None? ==> read == roster && left == Missing(targets, read, failed)
      ensures ended.None? && left == {} && failed == {} ==> AllPaused(read, targets)
      ensures calm ==> ended.None? && failed == failedIds
      ensures calm && alone && (forall k :: k in targets ==> k in roster && (k in pending || Paused(old(roster)[k]))) ==> left == {}
    {
      var killed: bool;
      left, read := {}, map[];
      killed, retryable, failed := PauseEach(pending, failedIds);
      if killed { ended := Some(Cut); return; }
      var unreadable := Loss();
      if unreadable { ended := Some(RETRY); return; }
      left := Missing(targets, roster, failed);
      NothingMissing(targets, roster, failed);
      read := roster;
      ended := None;
    }

    /** The rounds of pausing and reading back. */
    method PauseRounds(targets: set<Id>) returns (exit: Exit, ghost seen: seq<map<Id, Job>>)
      requires targets <= Ids(record)
      requires alone ==> forall k :: k in targets ==> k in roster && !Paused(roster[k])
      modifies this`roster, this`calls
      ensures old(calls) <= calls && forall i :: |old(calls)| <= i < |calls| ==> OnRecord(calls[i]) && calls[i].pauses && calls[i].id in targets
      ensures alone ==> roster.Keys == old(roster).Keys
      ensures alone ==> forall k :: k in roster ==> roster[k] == old(roster)[k] || (Paused(roster[k]) && k in targets)
      ensures alone && exit == OK ==> AllPaused(roster, targets)
      ensures exit == OK ==> ReadClean(seen, targets)
      ensures exit == DECIDED ==> Unanswered(calls[|old(calls)|..]) != {} && !SomeTimedOut(calls[|old(calls)|..])
      ensures steady ==>
        var made := calls[|old(calls)|..];
        && seen != []
        && exit == ExitFor(Unanswered(made), SomeTimedOut(made), Missing(targets, seen[|seen| - 1], Unanswered(made)))
      ensures calm && alone ==> exit == OK
    {
      hide Unanswered, SomeTimedOut, Missing;
      NoCalls(calls);
      var failed, retryable, pending, clean := {}, false, targets, 0;
      var round := 0;
      seen := [];
      while round < PAUSE_ROUNDS
        invariant pending <= targets && failed <= targets
        invariant old(calls) <= calls && forall i :: |old(calls)| <= i < |calls| ==> OnRecord(calls[i]) && calls[i].pauses && calls[i].id in targets
        invariant alone ==> roster.Keys == old(roster).Keys
        invariant alone ==> forall k :: k in roster ==> roster[k] == old(roster)[k] || (Paused(roster[k]) && k in targets)
        invariant alone && round > 0 ==> forall k :: k in targets && k !in pending && k !in failed ==> ShowsPaused(roster, k)
        invariant round == 0 ==> pending == targets
        invariant round <= PAUSE_ROUNDS && |seen| == round && clean <= 1 && clean <= round && (round > 0 ==> (pending == {} <==> clean > 0))
        invariant clean > 0 && failed == {} ==> AllPaused(seen[round - 1], targets)
        invariant calm && alone ==> failed == {} && (round > 0 ==> pending == {})
        invariant failed == Unanswered(calls[|old(calls)|..]) && (retryable <==> SomeTimedOut(calls[|old(calls)|..]))
        invariant round > 0 ==> pending == Missing(targets, seen[round - 1], failed)
      {
        ghost var before := calls;
        var ended, again;
        ghost var read;
        ended, again, failed, pending, read := PauseRound(targets, pending, failed);
        if ended.Some? { return ended.value, seen; }
        CallsSince(|old(calls)|, before, calls);
        NothingMissing(targets, roster, failed);
        retryable := retryable || again;
        clean := if pending == {} then clean + 1 else 0;
        seen := seen + [read];
        round := round + 1;
        if clean == 2 || targets == {} { break; }
        var killed := Boundary();
        if killed { return Cut, seen; }
      }
      if failed == {} && pending == {} { return OK, seen; }
      exit := if retryable || pending != {} then RETRY else DECIDED;
    }
  
    /** The resumes. */
    method ResumeEach(targets: set<Id>) returns (killed: bool, retryable: bool)
      requires targets <= Ids(record)
      modifies this`roster, this`calls
      ensures old(calls) <= calls && forall i :: |old(calls)| <= i < |calls| ==> OnRecord(calls[i]) && !calls[i].pauses
      ensures alone ==> roster.Keys == old(roster).Keys
      ensures alone ==> forall k :: k in roster && k !in targets ==> roster[k] == old(roster)[k]
      ensures alone ==> forall k :: k in roster && k in targets ==> roster[k] == old(roster)[k] || !Paused(roster[k])
      ensures retryable <==> SomeTimedOut(calls[|old(calls)|..])
      ensures calm || steady ==> !killed
      ensures calm && alone ==> forall k :: k in roster && k in targets ==> !Paused(roster[k])
    {
      hide Unanswered, SomeTimedOut;
      NoCalls(calls);
      var left := targets;
      killed, retryable := false, false;
      while left != {} && !killed
        invariant left <= targets
        invariant old(calls) <= calls && forall i :: |old(calls)| <= i < |calls| ==> OnRecord(calls[i]) && !calls[i].pauses
        invariant alone ==> roster.Keys == old(roster).Keys
        invariant alone ==> forall k :: k in roster && k !in targets ==> roster[k] == old(roster)[k]
        invariant alone ==> forall k :: k in roster && k in targets ==> roster[k] == old(roster)[k] || !Paused(roster[k])
        invariant retryable <==> SomeTimedOut(calls[|old(calls)|..])
        invariant calm || steady ==> !killed
        invariant calm && alone ==> forall k :: k in roster && k in targets && k !in left ==> !Paused(roster[k])
        decreases left
      {
        var id :| id in left;
        left := left - {id};
        ghost var before := calls;
        var answer;
        killed, answer := Hermes(false, id);
        OneCallSince(|old(calls)|, before, calls[|before|]);
        retryable := retryable || answer.TimedOut?;
      }
    }

    /** `resume`. */
    method Resume(readable: bool) returns (exit: Exit)
      modifies this
      // hermes is asked to resume only jobs on the record.
      ensures old(calls) <= calls && forall i :: |old(calls)| <= i < |calls| ==> OnRecord(calls[i]) && !calls[i].pauses
      // The record goes only once the store was read with none of its jobs paused.
      ensures record == old(record) || (record == None && (exit == OK || exit == Cut))
      ensures alone && record != old(record) ==> forall k :: k in ReadRecord(old(record), readable) ==> !ShowsPaused(roster, k)
      ensures alone ==> roster.Keys == old(roster).Keys
      ensures alone ==> forall k :: k in roster ==>
                roster[k] == old(roster)[k] || (!Paused(roster[k]) && k in ReadRecord(old(record), readable))
      ensures alone && exit == OK ==> forall k :: k in ReadRecord(old(record), readable) ==> !ShowsPaused(roster, k)
      ensures exit == OK && ReadRecord(old(record), readable) != {} ==> record == None
      // With no record, or none that can be read, it changes nothing and reports OK.
      ensures ReadRecord(old(record), readable) == {} ==> exit == OK && roster == old(roster) && record == old(record)
      // Worth another try when a command timed out and a job is still paused; decided when none did.
      ensures exit == DECIDED ==> !SomeTimedOut(calls[|old(calls)|..])
      ensures steady && alone ==>
        exit == (if forall k :: k in ReadRecord(old(record), readable) ==> !ShowsPaused(roster, k) then OK
                 else if SomeTimedOut(calls[|old(calls)|..]) then RETRY else DECIDED)
      ensures calm && alone ==> exit == OK
    {
      hide Unanswered, SomeTimedOut;
      var ids := ReadRecord(record, readable);
      if ids == {} { return OK; }
      var killed := Boundary();
      if killed { return Cut; }
      var unreadable := Loss();
      if unreadable { return RETRY; }
      var targets := set id | id in ids && ShowsPaused(roster, id);
      killed := Boundary();
      if killed { return Cut; }
      var retryable: bool;
      killed, retryable := ResumeEach(targets);
      if killed { return Cut; }
      unreadable := Loss();
      if unreadable { return RETRY; }
      var still := set id | id in targets && ShowsPaused(roster, id);
      assert alone ==> forall k :: k in ids && k !in still ==> !ShowsPaused(roster, k);
      killed := Boundary();
      if killed { return Cut; }
      if still == {} {
        var removeFails := Loss();
        if removeFails { return Cut; }
        record := None;
        killed := Boundary();
        return if killed then Cut else OK;
      }
      exit := if retryable then RETRY else DECIDED;
    }
  }

  ghost function SnapshotOf(host: Host): Snapshot
    reads host
  {
    Snapshot(host.roster, host.record)
  }

  /** One run, and what it does to the account. */
  method OneRun(host: Host, run: Run, ghost original: set<Id>, ghost lost: set<Id>) returns (exit: Exit)
    requires host.alone && Accounted(original, lost, SnapshotOf(host))
    modifies host
    ensures Performs(run, host.shipped, host.stage, old(SnapshotOf(host)), SnapshotOf(host), exit)
    ensures Accounted(original, LostAfter(lost, run, old(SnapshotOf(host)), SnapshotOf(host)), SnapshotOf(host))
    ensures run.kind.ResumeRun? && exit == OK && run.readable ==> PausedIds(host.roster) == original + lost
    ensures host.calm ==> exit == OK
    ensures host.calm && run.kind.PauseRun? && Targets(old(host.roster), host.shipped, host.stage) != {} ==>
      host.record == Some(ReadRecord(old(host.record), run.readable) + Targets(old(host.roster), host.shipped, host.stage))
  {
    ghost var before := SnapshotOf(host);
    if run.kind.PauseRun? {
      ghost var seen;
      var noInputs := host.Mishap();
      var noWrites := host.Mishap();
      exit, seen := host.Pause(run.readable, !noInputs, !noWrites);
      PauseKeepsAccount(original, lost, before, SnapshotOf(host), Targets(before.roster, host.shipped, host.stage), run.readable);
    } else {
      exit := host.Resume(run.readable);
      ResumeKeepsAccount(original, lost, before, SnapshotOf(host), exit == OK, run.readable);
    }
  }

  /** Whether some run of the history forgot a pause. */
  ghost predicate SomeForgets(runs: seq<Run>, states: seq<Snapshot>)
    requires |states| == |runs| + 1
  {
    exists i :: 0 <= i < |runs| && Forgets(runs[i], states[i], states[i + 1])
  }

  /** Any number of pause and resume runs, each possibly cut short and each able to read the
      record or not, and then a resume that reports OK, on a host with no other writer.
      Exactly the jobs paused at the start are paused at the end if and only if no pause
      replaced a record it could not read while a recorded job was paused, and the resume
      could read the record or had nothing to undo.  A resume that cannot read it reports OK
      all the same.  `states` is what was there before each run, and before that resume. */
  method RunsThenResume(host: Host, runs: seq<Run>, readable: bool)
    returns (exit: Exit, ghost states: seq<Snapshot>, ghost exits: seq<Exit>)
    requires host.alone && host.record == None
    modifies host
    ensures |states| == |runs| + 1 && |exits| == |runs| && states[0] == old(SnapshotOf(host))
    ensures forall i :: 0 <= i < |runs| ==> Performs(runs[i], host.shipped, host.stage, states[i], states[i + 1], exits[i])
    ensures Performs(Run(ResumeRun, readable), host.shipped, host.stage, states[|runs|], SnapshotOf(host), exit)
    ensures exit == OK ==>
      (PausedIds(host.roster) == PausedIds(old(host.roster)) <==>
         !SomeForgets(runs, states) && (readable || PausedIds(states[|runs|].roster) == PausedIds(old(host.roster))))
    ensures !readable ==> exit == OK && SnapshotOf(host) == states[|runs|]
    ensures !SomeForgets(runs, states) ==> Accounted(PausedIds(old(host.roster)), {}, SnapshotOf(host))
    ensures host.calm ==> exit == OK && forall i :: 0 <= i < |exits| ==> exits[i] == OK
  {
    hide Performs, Accounted, SomeForgets, LostAfter;
    ghost var original, lost := PausedIds(host.roster), {};
    states, exits := [SnapshotOf(host)], [];
    NothingYet(SnapshotOf(host));
    for i := 0 to |runs|
      invariant |states| == i + 1 && |exits| == i && states[0] == old(SnapshotOf(host)) && states[i] == SnapshotOf(host)
      invariant forall j :: 0 <= j < i ==> Performs(runs[j], host.shipped, host.stage, states[j], states[j + 1], exits[j])
      invariant host.calm ==> forall j :: 0 <= j < i ==> exits[j] == OK
      invariant Accounted(original, lost, SnapshotOf(host))
      invariant lost == {} <==> !SomeForgets(runs[..i], states)
    {
      ghost var before := states;
      exit := OneRun(host, runs[i], original, lost);
      LostIff(lost, runs[i], before[i], SnapshotOf(host));
      lost := LostAfter(lost, runs[i], before[i], SnapshotOf(host));
      states, exits := states + [SnapshotOf(host)], exits + [exit];
      OneMoreRun(runs, i, before, SnapshotOf(host));
    }
    assert runs[..|runs|] == runs;
    ghost var before := SnapshotOf(host);
    exit := OneRun(host, Run(ResumeRun, readable), original, lost);
    LastResume(original, lost, host.shipped, host.stage, before, SnapshotOf(host), readable, exit);
  }

  lemma NothingYet(s: Snapshot)
    requires s.record == None
    ensures Accounted(PausedIds(s.roster), {}, s) && !SomeForgets([], [s])
  {
  }

  lemma LostIff(lost: set<Id>, run: Run, before: Snapshot, after: Snapshot)
    ensures LostAfter(lost, run, before, after) == {} <==> lost == {} && !Forgets(run, before, after)
  {
  }

  /** What the last resume leaves, from what was lost before it. */
  lemma LastResume(original: set<Id>, lost: set<Id>, shipped: map<Id, bool>, stage: set<Id>, before: Snapshot, after: Snapshot,
                   readable: bool, exit: Exit)
    requires Accounted(original, lost, before)
    requires Performs(Run(ResumeRun, readable), shipped, stage, before, after, exit)
    requires Accounted(original, LostAfter(lost, Run(ResumeRun, readable), before, after), after)
    requires exit == OK && readable ==> PausedIds(after.roster) == original + lost
    ensures exit == OK ==>
      (PausedIds(after.roster) == original <==> lost == {} && (readable || PausedIds(before.roster) == original))
    ensures !readable ==> exit == OK && after == before
    ensures lost == {} ==> Accounted(original, {}, after)
  {
    if lost != {} {
      var k :| k in lost;
      assert k in PausedIds(before.roster) && k in original + lost && k !in original;
    }
  }

  /** Forgetting is real: where a recorded job is paused and another is to be paused, as a
      pause cut between the two leaves it, a pause that cannot read the record and a resume
      that can both report OK, although nothing else goes wrong, and leave the first job
      paused. */
  method ForgetsForGood(host: Host, ghost original: set<Id>) returns (paused: Exit, resumed: Exit)
    requires host.alone && host.calm && Accounted(original, {}, SnapshotOf(host))
    requires Dropped(SnapshotOf(host)) != {} && Targets(host.roster, host.shipped, host.stage) != {}
    modifies host
    ensures paused == resumed == OK
    ensures PausedIds(host.roster) == original + old(Dropped(SnapshotOf(host))) != original
  {
    ghost var before := SnapshotOf(host);
    paused := OneRun(host, Run(PauseRun, false), original, {});
    assert host.record != before.record by {
      ghost var k :| k in Dropped(before);
      assert k !in Ids(host.record);
    }
    resumed := OneRun(host, Run(ResumeRun, true), original, Dropped(before));
  }

  /** Such a host: two audits the image ships, one paused and on record, one not yet. */
  lemma HalfPaused()
    ensures var roster := map["a" := Job(PAUSED_STATE, "", false), "b" := Job("scheduled", "", true)];
            var s := Snapshot(roster, Some({"a", "b"}));
            && Accounted({}, {}, s) && Dropped(s) == {"a"} && Targets(roster, map["a" := false, "b" := false], {}) == {"b"}
  {
  }

  lemma OneMoreRun(runs: seq<Run>, i: nat, states: seq<Snapshot>, after: Snapshot)
    requires i < |runs| && |states| == i + 1
    ensures SomeForgets(runs[..i + 1], states + [after]) <==> SomeForgets(runs[..i], states) || Forgets(runs[i], states[i], after)
  {
    var longer := states + [after];
    if j :| 0 <= j < i && Forgets(runs[..i][j], states[j], states[j + 1]) {
      assert Forgets(runs[..i + 1][j], longer[j], longer[j + 1]);
    }
    if Forgets(runs[i], states[i], after) {
      assert Forgets(runs[..i + 1][i], longer[i], longer[i + 1]);
    }
    if j :| 0 <= j < i + 1 && Forgets(runs[..i + 1][j], longer[j], longer[j + 1]) {
      if j < i { assert Forgets(runs[..i][j], states[j], states[j + 1]); }
    }
  }
}
