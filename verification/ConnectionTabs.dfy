/** What holds in every run of one tab, and of many tabs over one lease file. */
module ConnectionTabs {
  import opened Options
  import opened ConnectionController

  // ---- The invariant of one tab -----------------------------------------------------------

  ghost predicate Kind(t: Tab, k: JobKind) {
    t.job.Some? && t.job.value.kind == k
  }

  ghost predicate LevelsOk(t: Tab) {
    // A connected cluster is verified, is the selection, and its project is connected.
    && (t.cluster.phase.Connected? <==> t.verified.Some?)
    && (t.cluster.phase.Connected? ==> t.project.phase.Connected? && t.verified == t.selected)
    && (t.selected.Some? ==> t.selected.value.project == t.projectId)
    // A level is connecting exactly when its own job is attached.
    && (t.project.phase.Connecting? <==> Kind(t, ProjectJob))
    && (t.cluster.phase.Connecting? <==> Kind(t, ClusterJob))
    && (t.persistedLease ==> t.project.phase.Connected? && !t.persistenceError)
    // Without a project there is no cluster, and only a disconnected level shows an error.
    && (!t.project.phase.Connected? ==> t.cluster == Idle)
    && (t.project.error ==> t.project.phase.Disconnected?) && (t.cluster.error ==> t.cluster.phase.Disconnected?)
  }

  ghost predicate JobOk(t: Tab) {
    t.job.Some? ==>
      var j := t.job.value;
      && j.project == t.projectId
      && j.id < |t.log| && t.log[j.id] == Submitted(j.kind, j.project, j.target)
      && (j.kind.ProjectJob? ==> j.target.None?)
      && (!j.kind.ProjectJob? ==> t.project.phase.Connected? && j.target.Some? && j.target == t.selected && NotDetachedSince(t.log, j.id))
  }

  ghost predicate NotDetachedSince(log: seq<Event>, i: nat) {
    forall k :: i < k < |log| ==> !log[k].Detached?
  }

  /** Why a target may be used: a restored lease that has not been detached, or a
      cluster or refresh job for it, submitted after the last detachment, whose
      report was ready. */
  ghost predicate Justified(log: seq<Event>, target: Target) {
    || (|log| > 0 && log[0] == Restored(target) && NotDetachedSince(log, 0))
    || (exists i, j :: 0 <= i < j < |log| && VerifiedFor(log, i, j, target) && NotDetachedSince(log, i))
  }

  ghost predicate VerifiedFor(log: seq<Event>, i: nat, j: nat, target: Target)
    requires i < j < |log|
  {
    log[i].Submitted? && !log[i].kind.ProjectJob? && log[i].target == Some(target) && log[j] == Verified(i)
  }

  ghost predicate Inv(t: Tab) {
    LevelsOk(t) && JobOk(t) && (t.cluster.phase.Connected? ==> Justified(t.log, t.verified.value))
  }

  lemma JustifiedAppend(log: seq<Event>, e: Event, target: Target)
    requires Justified(log, target) && !e.Detached?
    ensures Justified(log + [e], target)
  {
    var log' := log + [e];
    if |log| > 0 && log[0] == Restored(target) && NotDetachedSince(log, 0) {
      assert NotDetachedSince(log', 0);
    } else {
      var i, j :| 0 <= i < j < |log| && VerifiedFor(log, i, j, target) && NotDetachedSince(log, i);
      assert VerifiedFor(log', i, j, target) && NotDetachedSince(log', i);
    }
  }

  /** Submitting keeps the tab in order when the job belongs where the tab is. */
  lemma SubmitKept(t: Tab, kind: JobKind, target: Option<Target>)
    requires Inv(t) && t.job.None? && t.project.phase.Connected? && target.Some? && target == t.selected && kind.RefreshJob?
    ensures Inv(Submit(t, kind, target))
  {
    if t.cluster.phase.Connected? {
      JustifiedAppend(t.log, Submitted(kind, t.projectId, target), t.verified.value);
    }
  }

  lemma ForgetKept(t: Tab)
    requires Inv(t)
    ensures Inv(DropCluster(t)) && Inv(ForgetCluster(t))
  {
  }

  lemma AbortKept(t: Tab)
    requires Inv(t)
    ensures Inv(Abort(t))
  {
  }

  lemma SelectKept(t: Tab, projectId: string, target: Option<Target>)
    requires Inv(t)
    ensures Inv(SelectProject(t, projectId))
    ensures SelectTarget(t, target).Some? ==> Inv(SelectTarget(t, target).value)
  {
  }

  lemma ConnectProjectKept(t: Tab)
    requires Inv(t)
    ensures Inv(ConnectProject(t))
  {
  }

  /** Connecting a cluster keeps the tab in order exactly when it does nothing, when
      no job is attached to a disconnected cluster, or when its own job already is:
      the condition the portal's button enforces. */
  lemma ConnectClusterKeptIff(t: Tab)
    requires Inv(t)
    ensures Inv(ConnectCluster(t)) <==>
              || t.project.phase != Connected || t.selected.None?
              || (t.job.None? && t.cluster.phase != Connected)
              || Kind(t, ClusterJob)
  {
  }

  /** Resuming keeps the tab in order exactly when it does nothing or the project is
      connected, as it is on a restored tab. */
  lemma ResumeKeptIff(t: Tab)
    requires Inv(t)
    ensures Inv(Resume(t)) <==> t.selected.None? || t.job.Some? || t.project.phase.Connected?
  {
    if t.selected.Some? && t.job.None? && t.project.phase.Connected? { SubmitKept(t, RefreshJob, t.selected); }
  }

  lemma RefreshKept(t: Tab)
    requires Inv(t)
    ensures Inv(Refresh(t))
  {
    if ConnectedTarget(t).Some? && t.job.None? { SubmitKept(t, RefreshJob, ConnectedTarget(t)); }
  }

  lemma GainKept(t: Tab, file: File, report: Report, e: Surroundings)
    requires Inv(t) && t.job.Some? && !t.job.value.kind.ProjectJob? && report.Reported? && report.ready
    ensures Inv(Poll(t, file, report, e).0)
  {
    var job := t.job.value;
    var log := t.log + [Verified(job.id)];
    assert VerifiedFor(log, job.id, |t.log|, job.target.value);
    assert NotDetachedSince(log, job.id);
  }

  lemma PollKept(t: Tab, file: File, report: Report, e: Surroundings)
    requires Inv(t)
    ensures Inv(Poll(t, file, report, e).0)
  {
    if t.job.Some? && !t.job.value.kind.ProjectJob? && report.Reported? && report.ready {
      GainKept(t, file, report, e);
    }
  }

  /** The report still lists the selected cluster. */
  ghost predicate StillListed(t: Tab, clusters: seq<ClusterInfo>) {
    t.selected.Some? && exists c :: c in clusters && c.name == t.selected.value.cluster && c.location == t.selected.value.location
  }

  /** Exactly one cluster of the report is a host, at place `i`. */
  ghost predicate OnlyHost(clusters: seq<ClusterInfo>, i: int) {
    0 <= i < |clusters| && clusters[i].host && forall j :: 0 <= j < |clusters| && j != i ==> !clusters[j].host
  }

  lemma {:induction false} HostsAre(clusters: seq<ClusterInfo>)
    ensures Hosts(clusters) == [] <==> forall i :: 0 <= i < |clusters| ==> !clusters[i].host
    ensures |Hosts(clusters)| == 1 <==> exists i :: OnlyHost(clusters, i)
    ensures forall i :: OnlyHost(clusters, i) ==> Hosts(clusters) == [clusters[i]]
  {
    if clusters != [] {
      var rest := clusters[1..];
      HostsAre(rest);
      assert forall i :: 0 <= i < |rest| ==> rest[i] == clusters[i + 1];
      forall i | OnlyHost(clusters, i) ensures Hosts(clusters) == [clusters[i]] {
        if i > 0 { assert OnlyHost(rest, i - 1); }
      }
      if |Hosts(clusters)| == 1 {
        if clusters[0].host {
          assert OnlyHost(clusters, 0);
        } else {
          var i :| OnlyHost(rest, i);
          assert OnlyHost(clusters, i + 1);
        }
      }
    }
  }

  /** What a ready project report selects: the selection it still lists; otherwise its only
      host, under the tab's project; and nothing when it has none or several. */
  lemma ReportSelects(t: Tab, clusters: seq<ClusterInfo>, namespace: string)
    ensures var x := SelectDiscovered(t, clusters, namespace);
            && (StillListed(t, clusters) ==> x == t.selected)
            && (forall i :: !StillListed(t, clusters) && OnlyHost(clusters, i) ==>
                  && x.Some? && x.value.project == t.projectId
                  && x.value.cluster == clusters[i].name && x.value.location == clusters[i].location
                  && x.value.namespace == namespace && x.value.source == "kube-agents-host label")
            && (!StillListed(t, clusters) && (forall i :: !OnlyHost(clusters, i)) ==> x.None?)
  {
    HostsAre(clusters);
    assert StillListed(t, clusters) <==> t.selected.Some? && exists i | 0 <= i < |clusters| ::
      clusters[i].name == t.selected.value.cluster && clusters[i].location == t.selected.value.location;
  }

  /** What a report does.  A cluster or refresh job puts its own target in use if its report
      is ready, and nothing otherwise, with the time of the check.  A project job connects the
      project if its report is ready, with the selection `ReportSelects` tells, and touches
      neither lease nor file. */
  lemma PollMeans(t: Tab, file: File, report: Report, e: Surroundings)
    requires Inv(t)
    ensures var (t', file') := Poll(t, file, report, e);
            && t'.job.None?
            && (t.job.None? ==> t' == t && file' == file)
            && (Kind(t, ClusterJob) || Kind(t, RefreshJob) ==>
                  && ConnectedTarget(t') == (if report.Reported? && report.ready then t.job.value.target else None)
                  && (report.Reported? ==> t'.verifiedAt == if report.ready then Some(report.checkedAt) else None)
                  && t'.cluster.error == !(report.Reported? && report.ready)
                  && t'.selected == t.selected && t'.project == t.project)
            && (Kind(t, ProjectJob) ==>
                  && ConnectedTarget(t').None? && (t'.project.phase.Connected? <==> report.Reported? && report.projectReady)
                  && t'.project.error == !(report.Reported? && report.projectReady) && !t'.cluster.error
                  && file' == file && t'.persistedLease == t.persistedLease)
  {
  }

  /** What a report leaves on disk.  A ready cluster or refresh report saves a usable lease of
      its target; a refresh that is not ready saves one that must be checked again, under the
      time of the last good check, and removes the file if that fails; the tab holds a lease
      exactly when the save worked.  Any other report leaves lease and file alone. */
  lemma PollSaves(t: Tab, file: File, report: Report, e: Surroundings)
    requires Inv(t) && t.job.Some?
    ensures var (t', file') := Poll(t, file, report, e);
            var ready := report.Reported? && report.ready;
            if Kind(t, ProjectJob) || (Kind(t, ClusterJob) && !ready) then file' == file && t'.persistedLease == t.persistedLease
            else
              var target := t.job.value.target.value;
              var at := if ready then report.checkedAt else if t.verifiedAt.Some? then t.verifiedAt.value else e.now;
              && (t'.persistedLease <==> t.account != "" && WellFormed(target) && e.disk.Works?)
              && t'.persistenceError == !t'.persistedLease
              && (t'.persistedLease ==> file' == Present(Lease(t.account, target, at, ready), e.fits))
              && (!t'.persistedLease && !ready && !e.deleteRaises ==> file' == Absent)
              && (!t'.persistedLease && e.disk.RaisesBefore? && (ready || e.deleteRaises) ==> file' == file)
  {
    hide WellFormed;
  }

  lemma ProjectReportSelects(t: Tab, file: File, report: Report, e: Surroundings)
    requires Inv(t) && Kind(t, ProjectJob)
    ensures var t' := Poll(t, file, report, e).0;
            if !(report.Reported? && report.projectReady) then t'.selected == t.selected
            else
              && (StillListed(t, report.clusters) ==> t'.selected == t.selected)
              && (forall i :: !StillListed(t, report.clusters) && OnlyHost(report.clusters, i) ==>
                    && t'.selected.Some? && t'.selected.value.project == t.projectId
                    && t'.selected.value.cluster == report.clusters[i].name && t'.selected.value.location == report.clusters[i].location
                    && t'.selected.value.namespace == e.namespace)
              && (!StillListed(t, report.clusters) && (forall i :: !OnlyHost(report.clusters, i)) ==> t'.selected.None?)
  {
    if report.Reported? {
      var u := t.(job := None);
      ReportSelects(u, report.clusters, e.namespace);
      assert StillListed(u, report.clusters) <==> StillListed(t, report.clusters);
      hide SelectDiscovered, StillListed, OnlyHost;
    }
  }

  /** What a pass does when nothing is stale and no report is in: it starts a refresh of the
      target in use once the last check is ten minutes old, and nothing else. */
  lemma PassRefreshes(t: Tab, file: File, e: Surroundings)
    requires Inv(t) && (Leased(t).Some? ==> LeaseMatches(t, file, Leased(t).value))
    ensures var due := ConnectedTarget(t).Some? && t.job.None? && t.verifiedAt.Some? && e.now - t.verifiedAt.value >= 600;
            var (t', file') := Tick(t, file, None, e);
            && file' == file && (!due ==> t' == t)
            && (due ==> t'.job.Some? && t'.job.value.kind == RefreshJob && t'.job.value.target == ConnectedTarget(t) &&
                        t' == t.(job := t'.job, log := t'.log))
  {
  }

  /** A pass that finds nothing stale applies the report of the attached job. */
  lemma PassApplies(t: Tab, file: File, report: Report, e: Surroundings)
    requires t.job.Some? && (Leased(t).Some? ==> LeaseMatches(t, file, Leased(t).value))
    ensures Tick(t, file, Some(report), e) == Poll(t, file, report, e)
  {
  }

  /** A lease still matches when the file holds the account's own, for the same place, usable
      exactly if the tab uses it; the stored source makes no difference if a load recognises it. */
  lemma LeaseMatchesMeans(t: Tab, file: File, target: Target)
    ensures LeaseMatches(t, file, target) ==>
      && file.Present? && file.fits && file.lease.account == t.account && file.lease.usable == ConnectedTarget(t).Some?
      && file.lease.target.(source := target.source) == target
    ensures file.Present? && file.fits && file.lease == Lease(t.account, target, file.lease.verifiedAt, ConnectedTarget(t).Some?) ==>
      (t.account != "" && WellFormed(target) && RecognisedSource(target.source) ==> LeaseMatches(t, file, target))
  {
    hide RecognisedSource;
  }

  lemma ReconcileKept(t: Tab, file: File)
    requires Inv(t)
    ensures Inv(Reconcile(t, file).0)
  {
    ForgetKept(t);
  }

  lemma TickKept(t: Tab, file: File, done: Option<Report>, e: Surroundings)
    requires Inv(t)
    ensures Inv(Tick(t, file, done, e).0)
  {
    ReconcileKept(t, file);
    var (r, detached) := Reconcile(t, file);
    if done.Some? { PollKept(r, file, done.value, e); }
    RefreshKept(r);
    hide Inv, Poll, Refresh, Reconcile;
  }

  // ---- Many tabs over one file ------------------------------------------------------------------

  type TabId = nat

  datatype UserAction =
    | PickProject(projectId: string)
    | PickTarget(target: Option<Target>)
    | ClickConnectProject
    | ClickConnectCluster
    | ClickAbort
    | ClickDisconnectCluster(deleteRaises: bool)
    | ClickDisconnectProject(deleteRaises: bool)

  datatype Action =
    | Open(id: TabId, account: string, projectId: string, selected: Option<Target>)
    | Reopen(id: TabId, account: string)
    | User(id: TabId, act: UserAction)
    | Maintain(id: TabId, done: Option<Report>, e: Surroundings)
    | OtherWriter(file: File)

  datatype World = World(file: File, tabs: map<TabId, Tab>)

  /** The portal's guard on the cluster's Connect button. */
  predicate ConnectClusterShown(t: Tab) {
    t.job.None? && !t.cluster.phase.Connected?
  }

  function Act(t: Tab, file: File, act: UserAction): (Tab, File) {
    match act
    case PickProject(p) => (SelectProject(t, p), file)
    case PickTarget(x) => (var r := SelectTarget(t, x); if r.Some? then r.value else t, file)
    case ClickConnectProject => (ConnectProject(t), file)
    case ClickConnectCluster => (if ConnectClusterShown(t) then ConnectCluster(t) else t, file)
    case ClickAbort => (Abort(t), file)
    case ClickDisconnectCluster(raises) => DisconnectCluster(t, file, raises)
    case ClickDisconnectProject(raises) => DisconnectProject(t, file, raises)
  }

  /** A tab that finds a lease of its account resumes it and revalidates at once. */
  function ReopenTab(lease: Lease): Tab {
    var t := RestoredTab(lease.account, lease.target, lease.verifiedAt, lease.usable);
    if lease.usable then Refresh(t) else Resume(t)
  }

  function Step(w: World, a: Action): World {
    match a
    case Open(id, account, projectId, selected) =>
      if id in w.tabs || (selected.Some? && selected.value.project != projectId) then w
      else w.(tabs := w.tabs[id := Fresh(account, projectId, selected)])
    case Reopen(id, account) =>
      var lease := Load(w.file, account);
      if id in w.tabs || lease.None? then w else w.(tabs := w.tabs[id := ReopenTab(lease.value)])
    case User(id, act) =>
      if id !in w.tabs then w
      else var (t, file) := Act(w.tabs[id], w.file, act); World(file, w.tabs[id := t])
    case Maintain(id, done, e) =>
      if id !in w.tabs then w
      else var (t, file) := Tick(w.tabs[id], w.file, done, e); World(file, w.tabs[id := t])
    case OtherWriter(file) => w.(file := file)
  }

  /** A step changes no tab but its own, and the file only through a disconnect, a pass or another writer. */
  lemma StepTouchesOneTab(w: World, a: Action, id: TabId)
    requires id in w.tabs
    ensures var next := Step(w, a);
            && id in next.tabs
            && (next.tabs[id] != w.tabs[id] ==> (a.User? || a.Maintain?) && a.id == id)
            && (next.file != w.file ==>
                  a.Maintain? || a.OtherWriter? || (a.User? && (a.act.ClickDisconnectCluster? || a.act.ClickDisconnectProject?)))
  {
    hide Inv, Tick;
  }

  /** What a step does, by the world before it: a tab opens, idle or on the lease of its
      account; a click or a pass acts on its tab and the file together; another writer's file
      is there.  A step that cannot happen changes nothing. */
  lemma StepMeans(w: World, a: Action)
    ensures var next := Step(w, a);
            match a
            case Open(id, account, projectId, selected) =>
              if id in w.tabs || (selected.Some? && selected.value.project != projectId) then next == w
              else
                && next.tabs.Keys == w.tabs.Keys + {id} && next.file == w.file
                && next.tabs[id].account == account && next.tabs[id].projectId == projectId && next.tabs[id].selected == selected
                && Quiet(next.tabs[id]) && next.tabs[id].project == next.tabs[id].cluster == Idle
            case Reopen(id, account) =>
              if id in w.tabs || Load(w.file, account).None? then next == w
              else
                && next.tabs.Keys == w.tabs.Keys + {id} && next.file == w.file
                && Kind(next.tabs[id], RefreshJob) && next.tabs[id].job.value.target == Some(Load(w.file, account).value.target)
            case User(id, act) =>
              if id !in w.tabs then next == w
              else next.tabs.Keys == w.tabs.Keys && (next.tabs[id], next.file) == Act(w.tabs[id], w.file, act)
            case Maintain(id, done, e) =>
              if id !in w.tabs then next == w
              else next.tabs.Keys == w.tabs.Keys && (next.tabs[id], next.file) == Tick(w.tabs[id], w.file, done, e)
            case OtherWriter(file) => next == World(file, w.tabs)
  {
    if a.Reopen? && Load(w.file, a.account).Some? { ReopenKept(Load(w.file, a.account).value); }
    hide Load, ReopenTab, Act, Tick;
  }

  function Run(w: World, actions: seq<Action>): World
    decreases |actions|
  {
    if actions == [] then w else Run(Step(w, actions[0]), actions[1..])
  }

  /** A run takes its actions one by one. */
  lemma {:induction false} RunOneMore(w: World, actions: seq<Action>, a: Action)
    ensures Run(w, []) == w && Run(w, actions + [a]) == Step(Run(w, actions), a)
    decreases |actions|
  {
    hide Step;
    if actions == [] {
      assert [a][1..] == [];
    } else {
      assert (actions + [a])[1..] == actions[1..] + [a];
      RunOneMore(Step(w, actions[0]), actions[1..], a);
    }
  }

  ghost predicate AllOk(w: World) {
    forall id :: id in w.tabs ==> Inv(w.tabs[id])
  }

  /** What a click does.  Only a disconnect touches the file, and it removes it. */
  lemma ActMeans(t: Tab, file: File, act: UserAction)
    requires Inv(t)
    ensures var (t', file') := Act(t, file, act);
            match act
            case PickProject(p) =>
              && file' == file && t'.job == t.job && ConnectedTarget(t') == ConnectedTarget(t)
              && t'.projectId == (if t.project.phase.Connected? || t.job.Some? then t.projectId else p)
              && t'.selected == (if t'.projectId == t.projectId then t.selected else None)
              && (t'.projectId != t.projectId ==> t'.verifiedAt.None? && t'.project == t'.cluster == Idle)
            case PickTarget(x) =>
              && file' == file && t'.job == t.job && ConnectedTarget(t') == ConnectedTarget(t) && t'.projectId == t.projectId
              && var free := t.project.phase.Connected? && ConnectedTarget(t).None? && t.job.None?;
                 if free && (x.Some? ==> x.value.project == t.projectId) then t'.selected == x && t'.cluster == Idle else t' == t
            case ClickConnectProject =>
              && file' == file && Kind(t', ProjectJob) && t'.job.value.project == t'.projectId == t.projectId
              && ConnectedTarget(t').None? && t'.verifiedAt.None? && !t'.persistedLease
            case ClickConnectCluster =>
              && file' == file
              && var starts := t.project.phase.Connected? && t.selected.Some? && t.job.None? && !t.cluster.phase.Connected?;
                 if starts then Kind(t', ClusterJob) && t'.job.value.target == t.selected else t' == t
            case ClickAbort =>
              && file' == file && t'.persistedLease == t.persistedLease
              && if Kind(t, ProjectJob) || Kind(t, ClusterJob) then t'.job.None? && ConnectedTarget(t').None? && t'.verifiedAt.None? else t' == t
            case ClickDisconnectCluster(raises) =>
              && file' == (if raises then file else Absent) && t'.persistedLease == (raises && t.persistedLease)
              && ConnectedTarget(t').None? && t'.verifiedAt.None? && !t'.persistenceError && (t'.job.Some? <==> Kind(t, ProjectJob))
              && t'.project == t.project && t'.selected == t.selected
            case ClickDisconnectProject(raises) =>
              && file' == (if raises then file else Absent) && !t'.persistedLease
              && t'.job.None? && ConnectedTarget(t').None? && t'.verifiedAt.None? && t'.selected.None? && t'.project == t'.cluster == Idle
  {
  }

  lemma ActKept(t: Tab, file: File, act: UserAction)
    requires Inv(t)
    ensures Inv(Act(t, file, act).0)
  {
    match act
    case PickProject(p) => SelectKept(t, p, None);
    case PickTarget(x) => SelectKept(t, t.projectId, x);
    case ClickConnectProject => ConnectProjectKept(t);
    case ClickConnectCluster => ConnectClusterKeptIff(t);
    case ClickAbort => AbortKept(t);
    case ClickDisconnectCluster(_) => ForgetKept(t);
    case ClickDisconnectProject(_) => AbortKept(t); ForgetKept(Abort(t));
  }

  /** A reopened tab uses the lease's target if it is usable, and checks it at once either way. */
  lemma ReopenKept(lease: Lease)
    ensures Inv(ReopenTab(lease))
    ensures var t := ReopenTab(lease);
            && Kind(t, RefreshJob) && t.job.value.target == t.selected == Some(lease.target)
            && ConnectedTarget(t) == (if lease.usable then Some(lease.target) else None)
            && t.account == lease.account && t.verifiedAt == Some(lease.verifiedAt) && t.persistedLease
  {
    var t := RestoredTab(lease.account, lease.target, lease.verifiedAt, lease.usable);
    assert Inv(t);
    RefreshKept(t);
    ResumeKeptIff(t);
  }

  lemma StepKept(w: World, a: Action)
    requires AllOk(w)
    ensures AllOk(Step(w, a))
  {
    match a
    case Open(_, _, _, _) =>
    case Reopen(_, account) => if Load(w.file, account).Some? { ReopenKept(Load(w.file, account).value); }
    case User(id, act) => if id in w.tabs { ActKept(w.tabs[id], w.file, act); }
    case Maintain(id, done, e) => if id in w.tabs { TickKept(w.tabs[id], w.file, done, e); }
    case OtherWriter(_) =>
  }

  /** In every run of any number of tabs, every tab is in order: a connected cluster
      is the verified selection of a connected project, a level is connecting exactly
      when its own job is attached, and what is in use is justified by the log. */
  lemma {:induction false} EveryTabInOrder(w: World, actions: seq<Action>)
    requires AllOk(w)
    ensures AllOk(Run(w, actions))
    decreases |actions|
  {
    if actions != [] {
      StepKept(w, actions[0]);
      EveryTabInOrder(Step(w, actions[0]), actions[1..]);
    }
  }

  /** From a start without tabs: a target in use is a restored lease not detached
      since, or that of a ready job submitted after the last detachment. */
  lemma DetachedResultNeverWins(file: File, actions: seq<Action>, id: TabId)
    requires id in Run(World(file, map[]), actions).tabs
    ensures var t := Run(World(file, map[]), actions).tabs[id];
            ConnectedTarget(t).Some? ==>
              && Justified(t.log, ConnectedTarget(t).value)
              && t.project.phase.Connected? && ConnectedTarget(t) == t.selected && t.selected.value.project == t.projectId
  {
    EveryTabInOrder(World(file, map[]), actions);
  }

  // ---- A tab whose lease changed under it ---------------------------------------------------------

  /** Nothing attached, nothing leased, nothing in use. */
  ghost predicate Quiet(t: Tab) {
    t.job.None? && !t.persistedLease && ConnectedTarget(t).None?
  }

  /** At its next maintenance pass a tab whose lease no longer matches lets go of the
      cluster and of its job, applies no report and writes nothing. */
  lemma StaleTabLetsGo(t: Tab, file: File, done: Option<Report>, e: Surroundings)
    requires Inv(t) && Leased(t).Some? && !LeaseMatches(t, file, Leased(t).value)
    ensures var (t', file') := Tick(t, file, done, e);
            && Quiet(t') && file' == file && t'.log == t.log + [Detached] && t'.selected == t.selected
            && t'.cluster.error && t'.project == t.project
  {
  }

  /** A pass over a quiet tab changes neither the tab nor the file. */
  lemma QuietTick(t: Tab, file: File, done: Option<Report>, e: Surroundings)
    requires Quiet(t)
    ensures Tick(t, file, done, e) == (t, file)
  {
  }

  /** And so it stays, whatever other tabs, writers and finished jobs do, until the
      user acts in that tab: it changes nothing in itself and every pass over it
      leaves the file alone. */
  lemma {:induction false} QuietUntilUserActs(w: World, actions: seq<Action>, id: TabId)
    requires id in w.tabs && Quiet(w.tabs[id])
    requires forall i :: 0 <= i < |actions| ==> !(actions[i].User? && actions[i].id == id)
    ensures id in Run(w, actions).tabs && Run(w, actions).tabs[id] == w.tabs[id]
    ensures forall done, e :: Step(Run(w, actions), Maintain(id, done, e)) == Run(w, actions)
    decreases |actions|
  {
    if actions == [] {
      forall done, e ensures Step(w, Maintain(id, done, e)) == w {
        QuietTick(w.tabs[id], w.file, done, e);
        assert w.tabs[id := w.tabs[id]] == w.tabs;
      }
    } else {
      var a := actions[0];
      if a.Maintain? && a.id == id { QuietTick(w.tabs[id], w.file, a.done, a.e); }
      QuietUntilUserActs(Step(w, a), actions[1..], id);
    }
  }

  /** Whether a save works, and what it leaves. */
  lemma SaveMeans(file: File, lease: Lease, disk: Disk, fits: bool)
    ensures var valid := lease.account != "" && lease.target.project != "" && lease.target.cluster != "" &&
                         lease.target.location != "" && lease.target.namespace != "";
            var (saved, ok) := Save(file, lease, disk, fits);
            && (ok <==> valid && disk.Works?)
            && (saved == Present(lease, fits) || saved == file)
            && (valid && !disk.RaisesBefore? ==> saved == Present(lease, fits))
            && (!valid || disk.RaisesBefore? ==> saved == file)
  {
  }

  /** Whose lease a load gives: the account's own, of a size and shape it accepts, and no other. */
  lemma LoadMeans(file: File, account: string)
    ensures Load(file, account).Some? <==>
      && file.Present? && file.fits && account != "" && file.lease.account == account
      && file.lease.target.project != "" && file.lease.target.cluster != ""
      && file.lease.target.location != "" && file.lease.target.namespace != ""
    ensures Load(file, account).Some? ==>
      var l := Load(file, account).value;
      && l.account == account && l.verifiedAt == file.lease.verifiedAt && l.usable == file.lease.usable
      && l.target == file.lease.target.(source := l.target.source)
  {
  }

  /** A saved lease loads back as it was saved exactly when its text fits and its
      source is one a load recognises. */
  lemma SaveLoadRoundTrip(file: File, lease: Lease, disk: Disk, fits: bool)
    requires Save(file, lease, disk, fits).1
    ensures var saved := Save(file, lease, disk, fits).0;
            Load(saved, lease.account) == Some(lease) <==> fits && RecognisedSource(lease.target.source)
    ensures var saved := Save(file, lease, disk, fits).0;
            Load(saved, lease.account).Some? ==> Load(saved, lease.account).value.(target := lease.target) == lease
  {
    var t := lease.target;
    if !RecognisedSource(t.source) { assert RecognisedSource("persisted selection"); }
    hide RecognisedSource;
  }

  /** A tab's own successful save trips its next reconcile exactly when the stored
      text is over the size limit or the target's source is not one a load knows. */
  lemma OwnSaveSurvivesIff(t: Tab, file: File, report: Report, e: Surroundings)
    requires Inv(t) && t.job.Some? && !t.job.value.kind.ProjectJob?
    requires Poll(t, file, report, e).0.persistedLease && (t.job.value.kind.RefreshJob? || (report.Reported? && report.ready))
    ensures var (t', file') := Poll(t, file, report, e);
            Reconcile(t', file').1 <==> !(e.fits && RecognisedSource(t.job.value.target.value.source))
  {
    hide RecognisedSource, Load, Save;
    var (t', file') := Poll(t, file, report, e);
    var target := t.job.value.target.value;
    var usable := report.Reported? && report.ready;
    var at := if usable then report.checkedAt else if t.verifiedAt.Some? then t.verifiedAt.value else e.now;
    var lease := Lease(t.account, target, at, usable);
    assert Save(file, lease, e.disk, e.fits) == (file', true);
    SaveLoadRoundTrip(file, lease, e.disk, e.fits);
    assert Leased(t') == Some(target);
    assert ConnectedTarget(t').Some? == usable;
  }

  // ---- Where the portal's targets come from ------------------------------------------------------

  /** What the tab has selected or checks carries a source that a load recognises. */
  ghost predicate Sourced(t: Tab) {
    && (t.selected.Some? ==> RecognisedSource(t.selected.value.source))
    && (t.job.Some? && t.job.value.target.Some? ==> RecognisedSource(t.job.value.target.value.source))
  }

  ghost predicate AllSourced(w: World) {
    forall id :: id in w.tabs ==> Sourced(w.tabs[id])
  }

  /** The targets a session or its user brings in: those the portal builds. */
  predicate PortalAction(a: Action) {
    match a
    case Open(_, _, _, selected) => selected.Some? ==> RecognisedSource(selected.value.source)
    case User(_, act) => act.PickTarget? && act.target.Some? ==> RecognisedSource(act.target.value.source)
    case Reopen(_, _) => true
    case Maintain(_, _, _) => true
    case OtherWriter(_) => true
  }

  lemma DiscoveredIsSourced(t: Tab, clusters: seq<ClusterInfo>, namespace: string)
    requires Sourced(t)
    ensures var x := SelectDiscovered(t, clusters, namespace); x.Some? ==> RecognisedSource(x.value.source)
  {
  }

  lemma ActKeepsSources(t: Tab, file: File, act: UserAction)
    requires Inv(t) && Sourced(t) && (act.PickTarget? && act.target.Some? ==> RecognisedSource(act.target.value.source))
    ensures Sourced(Act(t, file, act).0)
  {
    hide RecognisedSource;
  }

  lemma PollKeepsSources(t: Tab, file: File, report: Report, e: Surroundings)
    requires Inv(t) && Sourced(t)
    ensures Sourced(Poll(t, file, report, e).0)
  {
    hide RecognisedSource, SelectDiscovered, Save;
    if report.Reported? { DiscoveredIsSourced(t.(job := None), report.clusters, e.namespace); }
  }

  lemma TickKeepsSources(t: Tab, file: File, done: Option<Report>, e: Surroundings)
    requires Inv(t) && Sourced(t)
    ensures Sourced(Tick(t, file, done, e).0)
  {
    hide RecognisedSource, Poll;
    ReconcileKept(t, file);
    var (r, detached) := Reconcile(t, file);
    assert Sourced(r) && Sourced(Refresh(r));
    if done.Some? { PollKeepsSources(r, file, done.value, e); }
  }

  lemma LoadedIsSourced(file: File, account: string)
    requires Load(file, account).Some?
    ensures RecognisedSource(Load(file, account).value.target.source) && Sourced(ReopenTab(Load(file, account).value))
  {
    assert RecognisedSource("persisted selection");
    hide RecognisedSource;
  }

  lemma StepKeepsSources(w: World, a: Action)
    requires AllOk(w) && AllSourced(w) && PortalAction(a)
    ensures AllSourced(Step(w, a))
  {
    hide Inv, Sourced, RecognisedSource, Tick, Act, Load, ReopenTab;
    match a
    case Open(_, account, projectId, selected) => FreshIsSourced(account, projectId, selected);
    case Reopen(_, account) => if Load(w.file, account).Some? { LoadedIsSourced(w.file, account); }
    case User(id, act) => if id in w.tabs { ActKeepsSources(w.tabs[id], w.file, act); }
    case Maintain(id, done, e) => if id in w.tabs { TickKeepsSources(w.tabs[id], w.file, done, e); }
    case OtherWriter(_) =>
  }

  lemma FreshIsSourced(account: string, projectId: string, selected: Option<Target>)
    requires selected.Some? ==> RecognisedSource(selected.value.source)
    ensures Sourced(Fresh(account, projectId, selected))
  {
  }

  /** Every run keeps to recognised sources, whatever other writers put in the file. */
  lemma {:induction false} EverySourceIsRecognised(w: World, actions: seq<Action>)
    requires AllOk(w) && AllSourced(w) && forall i :: 0 <= i < |actions| ==> PortalAction(actions[i])
    ensures AllSourced(Run(w, actions))
    decreases |actions|
  {
    if actions != [] {
      StepKept(w, actions[0]);
      StepKeepsSources(w, actions[0]);
      EverySourceIsRecognised(Step(w, actions[0]), actions[1..]);
    }
  }

  /** So in every run of the portal a tab's own successful save trips its next reconcile
      exactly when the stored text is over the size limit. */
  lemma OnlySizeTrips(file: File, actions: seq<Action>, id: TabId, report: Report, e: Surroundings)
    requires forall i :: 0 <= i < |actions| ==> PortalAction(actions[i])
    requires var w := Run(World(file, map[]), actions);
             && id in w.tabs && w.tabs[id].job.Some? && !w.tabs[id].job.value.kind.ProjectJob?
             && Poll(w.tabs[id], w.file, report, e).0.persistedLease
             && (w.tabs[id].job.value.kind.RefreshJob? || (report.Reported? && report.ready))
    ensures var w := Run(World(file, map[]), actions);
            var (t, saved) := Poll(w.tabs[id], w.file, report, e);
            Reconcile(t, saved).1 <==> !e.fits
  {
    var start := World(file, map[]);
    var w := Run(start, actions);
    EveryTabInOrder(start, actions);
    EverySourceIsRecognised(start, actions);
    assert w.tabs[id].job.value.target.Some?;
    hide Inv, Poll, Reconcile, RecognisedSource, Run;
    OwnSaveSurvivesIff(w.tabs[id], w.file, report, e);
  }
}
