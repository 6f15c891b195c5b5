/** Closing the bot's merge requests and deleting leftover branches on GitLab
    (hack/ci_gitlab_forge.py, `reset_merge_requests`).

    Any write may fail, with or without having taken effect, or end the run because
    the token is rate-limited, each as a free choice (`*`); a read of the branches may end
    the run.  `writes` is every write issued, in order, with what the caller saw. */
module MergeRequestReset {

  type Iid = int

  datatype MergeRequest = MergeRequest(
    iid: Iid, author: string, sourceProject: int, sourceBranch: string, targetBranch: string, labels: set<string>)

  const AUDIT_REMEDIATION_LABEL := "audit:remediation"

  datatype Op = Label(iid: Iid) | Close(iid: Iid) | Delete(branch: string)

  datatype Outcome = Done | Faulted | RateLimited

  datatype Write = Write(op: Op, outcome: Outcome)

  /** Authored by the bot, from a branch in the project itself. */
  predicate IsAgent(mr: MergeRequest, project: int, bot: string) {
    mr.author == bot && mr.sourceProject == project
  }

  predicate IsAudit(mr: MergeRequest) {
    AUDIT_REMEDIATION_LABEL in mr.labels
  }

  /** Closing `mr` is what would free the branch `name`: it merges into it, or from it
      when that is the project's own branch. */
  predicate Needs(mr: MergeRequest, name: string, project: int) {
    name != "" && (name == mr.targetBranch || (name == mr.sourceBranch && mr.sourceProject == project))
  }

  /** A write this merge request may get: a close, or, if an audit's, a label. */
  predicate MayWrite(op: Op, mr: MergeRequest) {
    match op
    case Label(iid) => iid == mr.iid && "audit:remediation" in mr.labels
    case Close(iid) => iid == mr.iid
    case Delete(_) => false
  }

  /** A write to a listed merge request by the bot, from the project itself. */
  ghost predicate ToTheBot(op: Op, mrs: seq<MergeRequest>, project: int, bot: string) {
    exists mr :: mr in mrs && MayWrite(op, mr) && mr.author == bot && mr.sourceProject == project
  }

  /** What an open merge request still needs here: its target always, its source when
      that is in the project itself. */
  function BranchesInUse(mr: MergeRequest, project: int): (names: set<string>)
    ensures forall x :: x in names <==> Needs(mr, x, project)
  {
    {mr.targetBranch} + (if mr.sourceProject == project then {mr.sourceBranch} else {}) - {""}
  }

  function Iids(mrs: seq<MergeRequest>): seq<Iid> {
    seq(|mrs|, i requires 0 <= i < |mrs| => mrs[i].iid)
  }

  ghost predicate DistinctIids(mrs: seq<MergeRequest>) {
    forall i, j :: 0 <= i < j < |mrs| ==> mrs[i].iid != mrs[j].iid
  }

  function Agents(mrs: seq<MergeRequest>, project: int, bot: string): seq<MergeRequest> {
    if mrs == [] then []
    else
      var last := |mrs| - 1;
      Agents(mrs[..last], project, bot) + (if IsAgent(mrs[last], project, bot) then [mrs[last]] else [])
  }

  function Others(mrs: seq<MergeRequest>, project: int, bot: string): seq<MergeRequest> {
    if mrs == [] then []
    else
      var last := |mrs| - 1;
      Others(mrs[..last], project, bot) + (if IsAgent(mrs[last], project, bot) then [] else [mrs[last]])
  }

  lemma {:induction false} AgentsAndOthers(mrs: seq<MergeRequest>, project: int, bot: string)
    ensures multiset(Iids(Agents(mrs, project, bot))) + multiset(Iids(Others(mrs, project, bot))) == multiset(Iids(mrs))
    ensures forall mr :: mr in Agents(mrs, project, bot) <==> mr in mrs && IsAgent(mr, project, bot)
    ensures forall mr :: mr in Others(mrs, project, bot) <==> mr in mrs && !IsAgent(mr, project, bot)
  {
    if mrs != [] {
      var last := |mrs| - 1;
      var before, mr := mrs[..last], mrs[last];
      AgentsAndOthers(before, project, bot);
      assert mrs == before + [mr];
      IidsAppend(before, mr);
      IidsAppend(Agents(before, project, bot), mr);
      IidsAppend(Others(before, project, bot), mr);
      assert Agents(before, project, bot) + [] == Agents(before, project, bot);
      assert Others(before, project, bot) + [] == Others(before, project, bot);
    }
  }

  lemma IidsAppend(mrs: seq<MergeRequest>, mr: MergeRequest)
    ensures Iids(mrs + [mr]) == Iids(mrs) + [mr.iid]
  {
  }

  lemma IidsStep(mrs: seq<MergeRequest>, i: nat)
    requires i < |mrs|
    ensures mrs[i].iid in Iids(mrs)
    ensures multiset(Iids(mrs[..i + 1])) == multiset(Iids(mrs[..i])) + multiset{mrs[i].iid}
  {
    assert Iids(mrs)[i] == mrs[i].iid;
    IidsAppend(mrs[..i], mrs[i]);
    assert mrs[..i] + [mrs[i]] == mrs[..i + 1];
  }

  /** A branch no delete may name: the default, or one a listed merge request that is
      not closed still needs. */
  ghost predicate Protected(name: string, def: string, mrs: seq<MergeRequest>, project: int, closed: seq<Iid>) {
    name == def || exists i :: 0 <= i < |mrs| && mrs[i].iid !in closed && Needs(mrs[i], name, project)
  }

  /** The close of an audit merge request comes after a label write that succeeded. */
  ghost predicate LabelledFirst(writes: seq<Write>, mrs: seq<MergeRequest>) {
    forall i, k :: 0 <= i < |mrs| && 0 <= k < |writes| && "audit:remediation" in mrs[i].labels && writes[k].op == Close(mrs[i].iid) ==>
      exists j :: 0 <= j < k && writes[j] == Write(Label(mrs[i].iid), Done)
  }

  lemma LabelledFirstAppend(writes: seq<Write>, mrs: seq<MergeRequest>, w: Write)
    requires LabelledFirst(writes, mrs)
    requires w.op.Close? ==> forall i :: 0 <= i < |mrs| && IsAudit(mrs[i]) && mrs[i].iid == w.op.iid ==>
               exists j :: 0 <= j < |writes| && writes[j] == Write(Label(w.op.iid), Done)
    ensures LabelledFirst(writes + [w], mrs)
  {
    var all := writes + [w];
    forall i, k | 0 <= i < |mrs| && 0 <= k < |all| && IsAudit(mrs[i]) && all[k].op == Close(mrs[i].iid)
      ensures exists j :: 0 <= j < k && all[j] == Write(Label(mrs[i].iid), Done)
    {
      var j :| 0 <= j < k && j < |writes| && writes[j] == Write(Label(mrs[i].iid), Done);
      assert all[j] == writes[j];
    }
  }

  /** The record the reset fills in for its caller, and the writes it issues. */
  class Reset {
    const project: int
    const bot: string
    const def: string
    const dryRun: bool
    var keptOpen: seq<Iid>
    var labelled: seq<Iid>
    var unclosed: seq<Iid>
    var closed: seq<Iid>
    var keptBranches: seq<string>
    var undeleted: seq<string>
    var deleted: seq<string>
    var inUse: set<string>
    var writes: seq<Write>

    constructor (project: int, bot: string, def: string, dryRun: bool)
      ensures this.project == project && this.bot == bot && this.def == def && this.dryRun == dryRun
      ensures keptOpen == labelled == unclosed == closed == [] && keptBranches == undeleted == deleted == []
      ensures inUse == {} && writes == []
    {
      this.project, this.bot, this.def, this.dryRun := project, bot, def, dryRun;
      keptOpen, labelled, unclosed, closed := [], [], [], [];
      keptBranches, undeleted, deleted, inUse, writes := [], [], [], {}, [];
    }

    method Issue(op: Op) returns (outcome: Outcome)
      modifies this`writes
      ensures writes == old(writes) + [Write(op, outcome)]
    {
      outcome := *;
      writes := writes + [Write(op, outcome)];
    }
  
    /** No write was refused for the token's rate. */
    ghost predicate Unlimited()
      reads this`writes
    {
      forall i :: 0 <= i < |writes| ==> !writes[i].outcome.RateLimited?
    }

    /** What the lists say about the writes. */
    ghost predicate Truthful()
      reads this`closed, this`labelled, this`deleted, this`unclosed, this`undeleted, this`writes
    {
      && (forall x :: x in closed <==> Write(Close(x), Done) in writes)
      && (forall x :: x in labelled <==> Write(Label(x), Done) in writes)
      && (forall x :: x in deleted <==> Write(Delete(x), Done) in writes)
      && (forall x :: x in unclosed <==> Write(Close(x), Faulted) in writes || Write(Label(x), Faulted) in writes)
      && (forall x :: x in undeleted <==> Write(Delete(x), Faulted) in writes)
    }

    /** What is in use is needed by a merge request that was kept or did not close. */
    ghost predicate InUseNeeded(mrs: seq<MergeRequest>)
      reads this`inUse, this`keptOpen, this`unclosed
    {
      forall x :: x in inUse ==>
        exists i :: 0 <= i < |mrs| && (mrs[i].iid in keptOpen || mrs[i].iid in unclosed) && x in BranchesInUse(mrs[i], project)
    }

    /** A merge request is closed, or everything it needs is kept. */
    ghost predicate Handled(mr: MergeRequest)
      reads this`closed, this`inUse
    {
      mr.iid in closed || BranchesInUse(mr, project) <= inUse
    }

    method KeepOpen(mr: MergeRequest, ghost mrs: seq<MergeRequest>)
      requires mr in mrs
      modifies this`keptOpen, this`inUse
      ensures keptOpen == old(keptOpen) + [mr.iid] && inUse == old(inUse) + BranchesInUse(mr, project)
      ensures old(InUseNeeded(mrs)) ==> InUseNeeded(mrs)
    {
      keptOpen := keptOpen + [mr.iid];
      inUse := inUse + BranchesInUse(mr, project);
    }

    /** The merge requests that are not the agent's stay, with their branches. */
    method KeepOthers(mrs: seq<MergeRequest>)
      modifies this`keptOpen, this`inUse
      ensures keptOpen == old(keptOpen) + Iids(Others(mrs, project, bot)) && old(inUse) <= inUse
      ensures forall mr :: mr in mrs && !IsAgent(mr, project, bot) ==> BranchesInUse(mr, project) <= inUse
      ensures old(InUseNeeded(mrs)) ==> InUseNeeded(mrs)
    {
      hide IsAgent, BranchesInUse, InUseNeeded;
      for i := 0 to |mrs|
        invariant keptOpen == old(keptOpen) + Iids(Others(mrs[..i], project, bot)) && old(inUse) <= inUse
        invariant forall mr :: mr in mrs[..i] && !IsAgent(mr, project, bot) ==> BranchesInUse(mr, project) <= inUse
        invariant old(InUseNeeded(mrs)) ==> InUseNeeded(mrs)
      {
        assert mrs[..i + 1][..i] == mrs[..i] && mrs[..i + 1] == mrs[..i] + [mrs[i]];
        if !IsAgent(mrs[i], project, bot) {
          IidsAppend(Others(mrs[..i], project, bot), mrs[i]);
          KeepOpen(mrs[i], mrs);
        }
      }
      assert mrs[..|mrs|] == mrs;
    }

    method NotClosed(mr: MergeRequest, ghost mrs: seq<MergeRequest>)
      requires mr in mrs
      modifies this`unclosed, this`inUse
      ensures unclosed == old(unclosed) + [mr.iid] && inUse == old(inUse) + BranchesInUse(mr, project)
      ensures old(InUseNeeded(mrs)) ==> InUseNeeded(mrs)
    {
      unclosed := unclosed + [mr.iid];
      inUse := inUse + BranchesInUse(mr, project);
    }

    /** The label write of an audit's merge request, and what its failure leaves. */
    method LabelWrite(mr: MergeRequest, ghost mrs: seq<MergeRequest>) returns (o: Outcome)
      requires Truthful() && LabelledFirst(writes, mrs) && mr in mrs
      modifies this`labelled, this`unclosed, this`inUse, this`writes
      ensures Truthful() && LabelledFirst(writes, mrs)
      ensures writes == old(writes) + [Write(Label(mr.iid), o)]
      ensures unclosed == if o.Faulted? then old(unclosed) + [mr.iid] else old(unclosed)
      ensures inUse == if o.Faulted? then old(inUse) + BranchesInUse(mr, project) else old(inUse)
      ensures old(InUseNeeded(mrs)) ==> InUseNeeded(mrs)
    {
      hide InUseNeeded, BranchesInUse, LabelledFirst;
      ghost var before := writes;
      o := Issue(Label(mr.iid));
      LabelledFirstAppend(before, mrs, Write(Label(mr.iid), o));
      if o.Done? {
        labelled := labelled + [mr.iid];
      } else if o.Faulted? {
        NotClosed(mr, mrs);
      }
    }

    /** The close write, and what its failure leaves. */
    method CloseWrite(mr: MergeRequest, ghost mrs: seq<MergeRequest>) returns (o: Outcome)
      requires Truthful() && LabelledFirst(writes, mrs) && mr in mrs && DistinctIids(mrs)
      requires IsAudit(mr) ==> Write(Label(mr.iid), Done) in writes
      modifies this`closed, this`unclosed, this`inUse, this`writes
      ensures Truthful() && LabelledFirst(writes, mrs)
      ensures writes == old(writes) + [Write(Close(mr.iid), o)]
      ensures closed == if o.Done? then old(closed) + [mr.iid] else old(closed)
      ensures unclosed == if o.Faulted? then old(unclosed) + [mr.iid] else old(unclosed)
      ensures inUse == if o.Faulted? then old(inUse) + BranchesInUse(mr, project) else old(inUse)
      ensures old(InUseNeeded(mrs)) ==> InUseNeeded(mrs)
    {
      hide InUseNeeded, BranchesInUse, LabelledFirst;
      ghost var before := writes;
      SameIidSameRequest(mrs, mr);
      o := Issue(Close(mr.iid));
      LabelledFirstAppend(before, mrs, Write(Close(mr.iid), o));
      if o.Done? {
        closed := closed + [mr.iid];
      } else if o.Faulted? {
        NotClosed(mr, mrs);
      }
    }

    /** Label an audit's merge request, then close it; `ended` by the rate limit. */
    method CloseOne(mr: MergeRequest, ghost mrs: seq<MergeRequest>) returns (ended: bool)
      requires Truthful() && LabelledFirst(writes, mrs)
      requires mr in mrs && DistinctIids(mrs) && Unlimited()
      modifies this`labelled, this`closed, this`unclosed, this`inUse, this`writes
      ensures Truthful() && LabelledFirst(writes, mrs) && (ended <==> !Unlimited())
      ensures old(writes) <= writes && forall i :: |old(writes)| <= i < |writes| ==> MayWrite(writes[i].op, mr)
      ensures old(inUse) <= inUse && old(closed) <= closed
      ensures old(InUseNeeded(mrs)) ==> InUseNeeded(mrs)
      ensures !ended ==> Handled(mr)
      ensures !ended ==> (closed == old(closed) + [mr.iid] && unclosed == old(unclosed)) ||
                         (closed == old(closed) && unclosed == old(unclosed) + [mr.iid])
    {
      hide InUseNeeded, BranchesInUse, LabelledFirst, Truthful;
      if IsAudit(mr) {
        var o := LabelWrite(mr, mrs);
        assert writes[|writes| - 1].outcome == o;
        if o.RateLimited? { return true; }
        if o.Faulted? { return false; }
        assert writes[|writes| - 1] == Write(Label(mr.iid), Done);
      }
      var o := CloseWrite(mr, mrs);
      assert writes[|writes| - 1].outcome == o;
      ended := o.RateLimited?;
    }

    /** `writes` from `start` on only close merge requests of `agents`, and label audits' among
        them. */
    ghost predicate Addressed(start: nat, agents: seq<MergeRequest>)
      reads this`writes
    {
      forall i :: start <= i < |writes| ==>
        exists k :: 0 <= k < |agents| && MayWrite(writes[i].op, agents[k])
    }

    /** The next of the agent's merge requests. */
    method CloseNext(agents: seq<MergeRequest>, i: nat, ghost mrs: seq<MergeRequest>, ghost start: nat) returns (ended: bool)
      requires i < |agents| && agents[i] in mrs && DistinctIids(mrs)
      requires Truthful() && LabelledFirst(writes, mrs) && Unlimited() && Addressed(start, agents)
      requires forall k :: 0 <= k < i ==> Handled(agents[k])
      requires multiset(closed) + multiset(unclosed) == multiset(Iids(agents[..i]))
      modifies this`labelled, this`closed, this`unclosed, this`inUse, this`writes
      ensures Truthful() && LabelledFirst(writes, mrs) && (ended <==> !Unlimited()) && Addressed(start, agents)
      ensures old(writes) <= writes && old(inUse) <= inUse
      ensures old(InUseNeeded(mrs)) ==> InUseNeeded(mrs)
      ensures !ended ==> forall k :: 0 <= k <= i ==> Handled(agents[k])
      ensures !ended ==> multiset(closed) + multiset(unclosed) == multiset(Iids(agents[..i + 1]))
    {
      hide InUseNeeded, BranchesInUse, LabelledFirst, Truthful, DistinctIids, Iids, Unlimited;
      IidsStep(agents, i);
      ended := CloseOne(agents[i], mrs);
    }

    method CloseAgents(agents: seq<MergeRequest>, ghost mrs: seq<MergeRequest>) returns (ended: bool)
      requires !dryRun && Truthful() && LabelledFirst(writes, mrs) && DistinctIids(mrs)
      requires (forall mr :: mr in agents ==> mr in mrs) && closed == unclosed == [] && Unlimited()
      modifies this`labelled, this`closed, this`unclosed, this`inUse, this`writes
      ensures Truthful() && LabelledFirst(writes, mrs) && old(inUse) <= inUse
      ensures old(InUseNeeded(mrs)) ==> InUseNeeded(mrs)
      ensures old(writes) <= writes && Addressed(|old(writes)|, agents)
      ensures !ended ==> forall mr :: mr in agents ==> Handled(mr)
      ensures !ended ==> multiset(closed) + multiset(unclosed) == multiset(Iids(agents))
      ensures ended <==> !Unlimited()
    {
      assert Iids(agents[..0]) == [] && Addressed(|writes|, agents);
      hide InUseNeeded, BranchesInUse, LabelledFirst, Truthful, DistinctIids, Iids, Unlimited, Addressed, Handled;
      ended := false;
      for i := 0 to |agents|
        invariant Truthful() && LabelledFirst(writes, mrs) && old(inUse) <= inUse
        invariant old(InUseNeeded(mrs)) ==> InUseNeeded(mrs)
        invariant old(writes) <= writes && Addressed(|old(writes)|, agents)
        invariant forall k :: 0 <= k < i ==> Handled(agents[k])
        invariant multiset(closed) + multiset(unclosed) == multiset(Iids(agents[..i]))
        invariant Unlimited() && !ended
      {
        ended := CloseNext(agents, i, mrs, |old(writes)|);
        if ended { return; }
      }
      assert agents[..|agents|] == agents;
    }

    /** `writes` from `start` on only delete branches of `leftover` that are not in use. */
    ghost predicate OnlyDeletes(start: nat, leftover: seq<string>)
      reads this`writes, this`inUse
    {
      forall i :: start <= i < |writes| ==> writes[i].op.Delete? && writes[i].op.branch in leftover && writes[i].op.branch !in inUse
    }

    /** One leftover branch. */
    method DeleteOne(name: string) returns (ended: bool)
      requires Truthful() && Unlimited()
      modifies this`keptBranches, this`undeleted, this`deleted, this`writes
      ensures Truthful()
      ensures writes == old(writes) ||
        (!dryRun && name !in inUse && exists o :: writes == old(writes) + [Write(Delete(name), o)])
      ensures !ended && !dryRun ==>
        multiset(keptBranches) + multiset(deleted) + multiset(undeleted)
        == old(multiset(keptBranches) + multiset(deleted) + multiset(undeleted)) + multiset{name}
      ensures keptBranches == if name in inUse then old(keptBranches) + [name] else old(keptBranches)
      ensures ended <==> !Unlimited()
    {
      ended := false;
      if name in inUse {
        keptBranches := keptBranches + [name];
      } else if !dryRun {
        var o := Issue(Delete(name));
        assert writes[|writes| - 1].outcome == o;
        if o.RateLimited? { return true; }
        if o.Faulted? {
          undeleted := undeleted + [name];
        } else {
          deleted := deleted + [name];
        }
      }
    }

    /** The leftover branches: kept, deleted or recorded as not deleted. */
    method DeleteBranches(leftover: seq<string>) returns (ended: bool)
      requires Truthful() && keptBranches == undeleted == deleted == [] && Unlimited()
      modifies this`keptBranches, this`undeleted, this`deleted, this`writes
      ensures Truthful() && old(writes) <= writes
      ensures OnlyDeletes(|old(writes)|, leftover)
      ensures dryRun ==> writes == old(writes)
      ensures !ended && !dryRun ==> multiset(keptBranches) + multiset(deleted) + multiset(undeleted) == multiset(leftover)
      ensures forall x :: x in keptBranches ==> x in inUse
      ensures ended <==> !Unlimited()
    {
      ended := false;
      for i := 0 to |leftover|
        invariant Truthful() && old(writes) <= writes
        invariant OnlyDeletes(|old(writes)|, leftover)
        invariant dryRun ==> writes == old(writes)
        invariant !dryRun ==> multiset(keptBranches) + multiset(deleted) + multiset(undeleted) == multiset(leftover[..i])
        invariant forall x :: x in keptBranches ==> x in inUse
        invariant Unlimited() && !ended
      {
        assert leftover[..i + 1] == leftover[..i] + [leftover[i]];
        assert leftover[i] in leftover;
        ended := DeleteOne(leftover[i]);
        if ended { return; }
      }
      assert leftover[..|leftover|] == leftover;
    }

    /** `reset_merge_requests` up to its read-back.  `listing` is the branch listing,
        which may still name branches that are gone, `present` what a read finds there, and
        `readFails` whether one of those reads raises. */
    method Run(mrs: seq<MergeRequest>, listing: seq<string>, present: set<string>, readFails: bool) returns (finished: bool, leftover: seq<string>)
      requires DistinctIids(mrs)
      requires keptOpen == labelled == unclosed == closed == [] && keptBranches == undeleted == deleted == []
      requires inUse == {} && writes == []
      modifies this
      // No delete is issued for the default branch or for what a listed merge request not recorded as closed needs.
      ensures forall i :: 0 <= i < |writes| && writes[i].op.Delete? ==> !Protected(writes[i].op.branch, def, mrs, project, closed)
      // An audit's merge request is not closed before its label write succeeded.
      ensures LabelledFirst(writes, mrs)
      // Only merge requests of the bot, from the project itself, are written to, only audits' are labelled,
      // and a dry run writes nothing.
      ensures forall i :: 0 <= i < |writes| && !writes[i].op.Delete? ==> ToTheBot(writes[i].op, mrs, project, bot)
      ensures dryRun ==> writes == []
      // Only a failed read of the branches or a refusal for the token's rate ends it early.
      ensures finished <==> !readFails && Unlimited()
      // The record tells the truth.  In a real run that was not refused it accounts for every merge request,
      // and on normal completion for every leftover branch.
      ensures Truthful()
      ensures Unlimited() && !dryRun ==> multiset(keptOpen) + multiset(closed) + multiset(unclosed) == multiset(Iids(mrs))
      ensures finished && !dryRun ==> multiset(keptBranches) + multiset(deleted) + multiset(undeleted) == multiset(leftover)
      // The branches considered are those listed and present, and the kept ones those still needed.
      ensures finished ==> forall x :: multiset(leftover)[x] == if x != def && x in present then multiset(listing)[x] else 0
      ensures finished && !dryRun ==> forall x :: x in leftover ==> (x in keptBranches <==> Protected(x, def, mrs, project, closed))
    {
      leftover := [];
      var ended := SettleRequests(mrs);
      OnlyTheBots(mrs);
      if ended { return false, leftover; }
      ghost var settled := writes;
      if readFails { return false, leftover; }
      leftover := Leftover(listing, present);
      assert def !in multiset(leftover);
      ended := DeleteBranches(leftover);
      DeletesAreSafe(settled, leftover, mrs);
      AppendKeepsLabelled(settled, mrs);
      finished := !ended;
      if finished && !dryRun {
        KeptIffNeeded(leftover, mrs);
      }
    }

    /** The two loops over the merge requests. */
    method SettleRequests(mrs: seq<MergeRequest>) returns (ended: bool)
      requires DistinctIids(mrs)
      requires keptOpen == labelled == unclosed == closed == [] && undeleted == deleted == [] && inUse == {} && writes == []
      modifies this`keptOpen, this`labelled, this`closed, this`unclosed, this`inUse, this`writes
      ensures Truthful() && LabelledFirst(writes, mrs) && Addressed(0, Agents(mrs, project, bot))
      ensures InUseNeeded(mrs)
      ensures dryRun ==> writes == []
      ensures ended <==> !Unlimited()
      ensures !ended && !dryRun ==> forall mr :: mr in mrs ==> Handled(mr)
      ensures !ended && !dryRun ==> multiset(keptOpen) + multiset(closed) + multiset(unclosed) == multiset(Iids(mrs))
    {
      KeepOthers(mrs);
      assert keptOpen == Iids(Others(mrs, project, bot));
      var agents := Agents(mrs, project, bot);
      AgentsAndOthers(mrs, project, bot);
      ended := false;
      if !dryRun {
        ended := CloseAgents(agents, mrs);
      }
    }

    /** Deletes do not disturb the order of labels and closes. */
    lemma AppendKeepsLabelled(settled: seq<Write>, mrs: seq<MergeRequest>)
      requires settled <= writes && LabelledFirst(settled, mrs)
      requires forall i :: |settled| <= i < |writes| ==> writes[i].op.Delete?
      ensures LabelledFirst(writes, mrs)
    {
      forall i, k | 0 <= i < |mrs| && 0 <= k < |writes| && IsAudit(mrs[i]) && writes[k].op == Close(mrs[i].iid)
        ensures exists j :: 0 <= j < k && writes[j] == Write(Label(mrs[i].iid), Done)
      {
        assert settled[k] == writes[k];
        var j :| 0 <= j < k && settled[j] == Write(Label(mrs[i].iid), Done);
        assert writes[j] == settled[j];
      }
    }

    /** The listed branches that are not the default and that a read finds present. */
    method Leftover(listing: seq<string>, present: set<string>) returns (names: seq<string>)
      ensures forall x :: multiset(names)[x] == if x != def && x in present then multiset(listing)[x] else 0
    {
      names := [];
      for i := 0 to |listing|
        invariant forall x :: multiset(names)[x] == if x != def && x in present then multiset(listing[..i])[x] else 0
      {
        assert listing[..i + 1] == listing[..i] + [listing[i]];
        if listing[i] != def && listing[i] in present {
          names := names + [listing[i]];
        }
      }
      assert listing[..|listing|] == listing;
    }

    /** A leftover branch is kept exactly when a merge request that is not closed needs it. */
    lemma KeptIffNeeded(leftover: seq<string>, mrs: seq<MergeRequest>)
      requires DistinctIids(mrs) && InUseNeeded(mrs) && def !in leftover
      requires forall mr :: mr in mrs ==> Handled(mr)
      requires multiset(keptOpen) + multiset(closed) + multiset(unclosed) == multiset(Iids(mrs))
      requires multiset(keptBranches) + multiset(deleted) + multiset(undeleted) == multiset(leftover)
      requires forall x :: x in keptBranches ==> x in inUse
      requires forall x :: x in deleted || x in undeleted ==> x !in inUse
      ensures forall x :: x in leftover ==> (x in keptBranches <==> Protected(x, def, mrs, project, closed))
    {
      forall x | x in leftover ensures x in keptBranches <==> Protected(x, def, mrs, project, closed) {
        assert x in multiset(leftover);
        assert x in keptBranches <==> x in inUse;
        assert forall i :: 0 <= i < |mrs| ==> Handled(mrs[i]);
        if x in inUse {
          var i :| 0 <= i < |mrs| && (mrs[i].iid in keptOpen || mrs[i].iid in unclosed) && x in BranchesInUse(mrs[i], project);
          AtMostOnce(mrs, mrs[i].iid);
          assert mrs[i].iid !in multiset(closed);
        }
      }
    }

    lemma OnlyTheBots(mrs: seq<MergeRequest>)
      requires Addressed(0, Agents(mrs, project, bot))
      ensures forall i :: 0 <= i < |writes| ==> ToTheBot(writes[i].op, mrs, project, bot)
    {
      AgentsAndOthers(mrs, project, bot);
      var agents := Agents(mrs, project, bot);
      forall i: nat | i < |writes| ensures ToTheBot(writes[i].op, mrs, project, bot) {
        assert Addressed(0, agents);
        var k :| 0 <= k < |agents| && MayWrite(writes[i].op, agents[k]);
        assert agents[k] in agents;
      }
    }

    lemma DeletesAreSafe(settled: seq<Write>, leftover: seq<string>, mrs: seq<MergeRequest>)
      requires settled <= writes && def !in leftover
      requires forall i :: 0 <= i < |settled| ==> !settled[i].op.Delete?
      requires OnlyDeletes(|settled|, leftover)
      requires |settled| < |writes| ==> forall mr :: mr in mrs ==> Handled(mr)
      ensures forall i :: 0 <= i < |writes| && writes[i].op.Delete? ==> !Protected(writes[i].op.branch, def, mrs, project, closed)
    {
      forall i | 0 <= i < |writes| && writes[i].op.Delete?
        ensures !Protected(writes[i].op.branch, def, mrs, project, closed)
      {
        forall k | 0 <= k < |mrs| && mrs[k].iid !in closed ensures writes[i].op.branch !in BranchesInUse(mrs[k], project) {
          assert mrs[k] in mrs;
          assert Handled(mrs[k]);
        }
      }
    }
  }

  lemma {:induction false} AtMostOnce(mrs: seq<MergeRequest>, iid: Iid)
    requires DistinctIids(mrs)
    ensures multiset(Iids(mrs))[iid] <= 1
    ensures multiset(Iids(mrs))[iid] == 1 ==> exists i :: 0 <= i < |mrs| && mrs[i].iid == iid
  {
    if mrs != [] {
      var last := |mrs| - 1;
      AtMostOnce(mrs[..last], iid);
      IidsAppend(mrs[..last], mrs[last]);
      assert mrs == mrs[..last] + [mrs[last]];
    }
  }

  lemma SameIidSameRequest(mrs: seq<MergeRequest>, mr: MergeRequest)
    requires DistinctIids(mrs) && mr in mrs
    ensures forall i :: 0 <= i < |mrs| && mrs[i].iid == mr.iid ==> mrs[i] == mr
  {
    var k :| 0 <= k < |mrs| && mrs[k] == mr;
    forall i | 0 <= i < |mrs| && mrs[i].iid == mr.iid ensures mrs[i] == mr {
    }
  }
}
