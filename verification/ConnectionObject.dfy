/** The mutable controller itself.  Each method performs the transition of the same name, so
    that what is proved of runs holds of the object, keeps the invariant of a tab, and
    states what it leaves in use, attached, leased and saved. */
module ConnectionObject {
  import opened Options
  import opened M = ConnectionController
  import T = ConnectionTabs

  class LeaseFile {
    var content: File

    constructor ()
      ensures content == Absent
    {
      content := Absent;
    }
  }

  class Controller {
    const account: string
    var projectId: string
    var selected: Option<Target>
    var project: Level
    var cluster: Level
    var verified: Option<Target>
    var verifiedAt: Option<int>
    var job: Option<Job>
    var persistenceError: bool
    var persistedLease: bool
    var log: seq<Event>

    function View(): Tab
      reads this
    {
      Tab(account, projectId, selected, project, cluster, verified, verifiedAt, job, persistenceError, persistedLease, log)
    }

    /** The tab is in order. */
    ghost predicate Valid()
      reads this
    {
      T.Inv(View())
    }

    /** The target whose results the portal shows. */
    function InUse(): Option<Target>
      reads this
    {
      ConnectedTarget(View())
    }

    /** The tab holds a lease and the file no longer says what the lease says. */
    ghost predicate Stale(file: LeaseFile)
      reads this, file
    {
      Leased(View()).Some? && !LeaseMatches(View(), file.content, Leased(View()).value)
    }

    constructor (account: string, projectId: string, selected: Option<Target>)
      ensures View() == M.Fresh(account, projectId, selected)
      ensures Valid() <==> (selected.Some? ==> selected.value.project == projectId)
      ensures InUse().None? && job.None? && !persistedLease && !persistenceError
    {
      this.account, this.projectId, this.selected := account, projectId, selected;
      project, cluster, verified, verifiedAt, job := Idle, Idle, None, None, None;
      persistenceError, persistedLease, log := false, false, [];
    }

    constructor Restore(account: string, target: Target, at: int, usable: bool)
      ensures View() == M.RestoredTab(account, target, at, usable)
      ensures Valid() && InUse() == if usable then Some(target) else None
      ensures selected == Some(target) && verifiedAt == Some(at) && persistedLease && job.None?
    {
      this.account, projectId, selected := account, target.project, Some(target);
      project := Level(Connected, false);
      cluster := if usable then Level(Connected, false) else Idle;
      verified := if usable then Some(target) else None;
      verifiedAt, job, persistenceError, persistedLease := Some(at), None, false, true;
      log := if usable then [Restored(target)] else [];
    }

    method SelectProject(id: string)
      requires Valid()
      modifies this
      ensures View() == M.SelectProject(old(View()), id)
      ensures Valid()
      // A connected or busy tab keeps its selection; any other lets go of all that came with it.
      ensures old(project.phase.Connected? || job.Some?) ==> View() == old(View())
      ensures !old(project.phase.Connected? || job.Some?) ==> projectId == id
      ensures projectId != old(projectId) ==> selected.None? && InUse().None? && project == Idle && cluster == Idle
    {
      T.SelectKept(View(), id, None);
      hide T.Inv;
      if id == projectId { return; }
      if project.phase.Connected? || job.Some? { return; }
      projectId := id;
      selected := None;
      project := Idle;
      cluster := Idle;
      verified := None;
      verifiedAt := None;
    }

    method SelectTarget(target: Option<Target>) returns (raised: bool)
      requires Valid()
      modifies this
      ensures raised <==> M.SelectTarget(old(View()), target).None?
      ensures View() == if raised then old(View()) else M.SelectTarget(old(View()), target).value
      ensures Valid() && InUse() == old(InUse()) && job == old(job)
      // Only between a project and a cluster can a target be picked, and only one of the project.
      ensures var free := old(project.phase.Connected? && InUse().None? && job.None?);
        && (raised <==> free && target.Some? && target.value.project != projectId)
        && selected == (if free && !raised then target else old(selected))
    {
      T.SelectKept(View(), projectId, target);
      hide T.Inv;
      if !project.phase.Connected? || (cluster.phase.Connected? && verified.Some?) || job.Some? { return false; }
      if target.Some? && target.value.project != projectId { return true; }
      selected := target;
      cluster := Idle;
      raised := false;
    }

    method Submit(kind: JobKind, target: Option<Target>)
      modifies this`job, this`log
      ensures View() == M.Submit(old(View()), kind, target)
    {
      if job.Some? { return; }
      job := Some(Job(kind, projectId, target, |log|));
      log := log + [Submitted(kind, projectId, target)];
    }

    method DetachNonProjectJob()
      modifies this`job
      ensures job == if old(job).Some? && !old(job).value.kind.ProjectJob? then None else old(job)
    {
      if job.None? || job.value.kind.ProjectJob? { return; }
      job := None;
    }

    /** `deleteRaises` says whether removing the file raises; the raise leaves the method. */
    method DisconnectCluster(file: LeaseFile, deletePersisted: bool, deleteRaises: bool)
      requires Valid()
      modifies this, file
      ensures deletePersisted ==> (View(), file.content) == M.DisconnectCluster(old(View()), old(file.content), deleteRaises)
      ensures !deletePersisted ==> View() == M.ForgetCluster(old(View())) && file.content == old(file.content)
      ensures Valid()
      // Nothing is in use or leased, no result for a cluster can still come in, the project stays as it was.
      ensures InUse().None? && (job.Some? ==> job == old(job) && job.value.kind.ProjectJob?)
      ensures persistedLease == (old(persistedLease) && deletePersisted && deleteRaises) && !persistenceError
      ensures file.content == if deletePersisted && !deleteRaises then Absent else old(file.content)
      ensures project == old(project) && projectId == old(projectId) && selected == old(selected)
      ensures log == old(log) + [Detached]
    {
      T.ForgetKept(View());
      hide T.Inv;
      DetachNonProjectJob();
      cluster := Idle;
      verified := None;
      verifiedAt := None;
      persistenceError := false;
      log := log + [Detached];
      if deletePersisted {
        if deleteRaises { return; }
        file.content := Absent;
      }
      persistedLease := false;
    }

    method ConnectProject(file: LeaseFile)
      requires Valid()
      modifies this, file
      ensures View() == M.ConnectProject(old(View())) && file.content == old(file.content)
      ensures Valid() && InUse().None? && !persistedLease
      ensures project.phase.Connecting? && job.Some? && job.value.kind.ProjectJob? && job.value.project == projectId
    {
      T.ConnectProjectKept(View());
      DisconnectCluster(file, false, false);
      project := Level(Connecting, false);
      Submit(ProjectJob, None);
    }

    /** The invariant survives exactly when the call does nothing, when nothing is attached
        to a cluster that is not connected, or when this tab's own attempt is. */
    method ConnectCluster()
      requires Valid()
      modifies this
      ensures View() == M.ConnectCluster(old(View()))
      ensures Valid() <==>
        || !old(project.phase.Connected?) || old(selected).None?
        || (old(job).None? && !old(cluster.phase.Connected?))
        || old(T.Kind(View(), ClusterJob))
      ensures old(project.phase.Connected? && selected.Some? && job.None?) ==>
        job.Some? && job.value.kind.ClusterJob? && job.value.target == selected == old(selected)
    {
      T.ConnectClusterKeptIff(View());
      hide T.Inv;
      if !project.phase.Connected? || selected.None? { return; }
      cluster := Level(Connecting, false);
      Submit(ClusterJob, selected);
    }

    method Refresh()
      requires Valid()
      modifies this
      ensures View() == M.Refresh(old(View()))
      ensures Valid() && InUse() == old(InUse())
      ensures job == old(job) || (job.Some? && old(job).None? && job.value.kind.RefreshJob? && job.value.target == InUse())
    {
      T.RefreshKept(View());
      hide T.Inv;
      var target := if cluster.phase.Connected? then verified else None;
      if target.None? || job.Some? { return; }
      Submit(RefreshJob, target);
    }

    /** The invariant survives exactly when the call does nothing or the project is
        connected. */
    method Resume()
      requires Valid()
      modifies this
      ensures View() == M.Resume(old(View()))
      ensures Valid() <==> old(selected).None? || old(job).Some? || old(project.phase.Connected?)
      ensures InUse() == old(InUse())
    {
      T.ResumeKeptIff(View());
      hide T.Inv;
      if selected.None? || job.Some? { return; }
      Submit(RefreshJob, selected);
    }

    method Abort()
      requires Valid()
      modifies this
      ensures View() == M.Abort(old(View()))
      ensures Valid()
      // A refresh cannot be aborted; any other attempt is detached, with nothing left in use or connecting.
      ensures old(job.None? || job.value.kind.RefreshJob?) ==> View() == old(View())
      ensures !old(job.None? || job.value.kind.RefreshJob?) ==>
        job.None? && InUse().None? && !project.phase.Connecting? && !cluster.phase.Connecting? && log == old(log) + [Detached]
      ensures old(T.Kind(View(), ClusterJob)) ==> project == old(project) && project.phase.Connected?
    {
      T.AbortKept(View());
      var j := job;
      if j.None? || j.value.kind.RefreshJob? { return; }
      job := None;
      if j.value.kind.ProjectJob? {
        project := Idle;
      }
      cluster := Idle;
      verified := None;
      verifiedAt := None;
      log := log + [Detached];
    }

    method DisconnectProject(file: LeaseFile, deleteRaises: bool)
      requires Valid()
      modifies this, file
      ensures (View(), file.content) == M.DisconnectProject(old(View()), old(file.content), deleteRaises)
      ensures Valid()
      // Nothing is left of the connection: no job of any kind, no selection, no lease.
      ensures job.None? && InUse().None? && selected.None? && !persistedLease && project == Idle && cluster == Idle
      ensures file.content == if deleteRaises then old(file.content) else Absent
    {
      if job.Some? {
        Abort();
      }
      DisconnectCluster(file, false, false);
      project := Idle;
      selected := None;
      if !deleteRaises {
        file.content := Absent;
      }
    }

    /** Only a connected project has a lease. */
    lemma LeaseNeedsProject()
      requires Valid()
      ensures persistedLease ==> project.phase.Connected? && !T.Kind(View(), ProjectJob)
    {
    }

    /** A refresh that is done leaves the tab in order without its job. */
    lemma RefreshDone()
      requires Valid()
      ensures T.Kind(View(), RefreshJob) ==> T.Inv(View().(job := None))
      ensures job.Some? && !job.value.kind.ProjectJob? ==> job.value.target.Some?
    {
    }

    method Persist(file: LeaseFile, target: Target, at: int, e: Surroundings)
      modifies this`persistedLease, this`persistenceError, file
      ensures (View(), file.content) == M.Persist(old(View()), old(file.content), target, at, e)
    {
      var (content, ok) := Save(file.content, Lease(account, target, at, true), e.disk, e.fits);
      file.content := content;
      persistedLease := ok;
      persistenceError := !ok;
    }

    method RequireRevalidation(file: LeaseFile, target: Target, at: Option<int>, e: Surroundings)
      modifies this`persistedLease, this`persistenceError, file
      ensures (View(), file.content) == M.RequireRevalidation(old(View()), old(file.content), target, at, e)
    {
      var (content, ok) := Save(file.content, Lease(account, target, if at.Some? then at.value else e.now, false), e.disk, e.fits);
      file.content := content;
      if ok {
        persistenceError, persistedLease := false, true;
      } else {
        if !e.deleteRaises { file.content := Absent; }
        persistenceError, persistedLease := true, false;
      }
    }

    method Reconcile(file: LeaseFile) returns (detached: bool)
      requires Valid()
      modifies this, file
      ensures (View(), detached) == M.Reconcile(old(View()), file.content) && file.content == old(file.content)
      ensures Valid() && (detached <==> old(Stale(file)))
      ensures detached ==> T.Quiet(View()) && selected == old(selected) && project == old(project)
      ensures !detached ==> View() == old(View())
    {
      T.ReconcileKept(View(), file.content);
      LeaseNeedsProject();
      if !persistedLease { return false; }
      var inUse := if cluster.phase.Connected? then verified else None;
      var target := if inUse.Some? then inUse else selected;
      if target.None? { return false; }
      var saved := Load(file.content, account);
      if saved.Some? && saved.value.usable == inUse.Some? && saved.value.target == target.value { return false; }
      DisconnectCluster(file, false, false);
      cluster := Failed();
      detached := true;
    }

    method LoseCluster(file: LeaseFile, j: Job, e: Surroundings)
      requires Valid()
      modifies this, file
      ensures (View(), file.content) == M.LoseCluster(old(View()), old(file.content), j, e)
    {
      var at := verifiedAt;
      DisconnectCluster(file, false, false);
      if j.target.Some? {
        RequireRevalidation(file, j.target.value, at, e);
      }
      cluster := Failed();
    }

    method GainCluster(file: LeaseFile, j: Job, target: Target, at: int, e: Surroundings)
      modifies this, file
      ensures (View(), file.content) == M.GainCluster(old(View()), old(file.content), j, target, at, e)
    {
      cluster := Level(Connected, false);
      verified := Some(target);
      verifiedAt := Some(at);
      if j.kind.ClusterJob? {
        selected := Some(target);
      }
      log := log + [Verified(j.id)];
      Persist(file, target, at, e);
    }

    /** The part of `poll` after the job has been taken off. */
    method ApplyReport(file: LeaseFile, j: Job, report: Report, e: Surroundings)
      requires j.kind.RefreshJob? ==> Valid()
      modifies this, file
      ensures (View(), file.content) == M.Applied(old(View()), old(file.content), j, report, e)
    {
      hide T.Inv, Save;
      match j.kind
      case ProjectJob =>
        if report.Reported? && report.projectReady {
          project := Level(Connected, false);
          selected := SelectDiscovered(View(), report.clusters, e.namespace);
        } else {
          project := Failed();
          cluster := Idle;
        }
      case ClusterJob =>
        if report.Reported? && report.ready && j.target.Some? {
          GainCluster(file, j, j.target.value, report.checkedAt, e);
        } else {
          cluster := Failed();
          if report.Reported? {
            verified := None;
            verifiedAt := None;
          }
        }
      case RefreshJob =>
        if report.Reported? && report.ready && j.target.Some? {
          GainCluster(file, j, j.target.value, report.checkedAt, e);
        } else {
          LoseCluster(file, j, e);
        }
    }

    /** `poll`, for a job that is done. */
    method Poll(file: LeaseFile, report: Report, e: Surroundings)
      requires Valid()
      modifies this, file
      ensures (View(), file.content) == M.Poll(old(View()), old(file.content), report, e)
      ensures Valid() && job.None?
      ensures old(job).None? ==> View() == old(View()) && file.content == old(file.content)
      ensures cluster.error ==> InUse().None?
      // A cluster or refresh job puts its own target in use if its report is ready, and nothing otherwise.
      ensures old(T.Kind(View(), ClusterJob) || T.Kind(View(), RefreshJob)) ==>
        InUse() == if report.Reported? && report.ready then old(job).value.target else None
      // A project job connects the project if its report is ready, and touches neither lease nor file.
      ensures old(T.Kind(View(), ProjectJob)) ==>
        && InUse().None? && (project.phase.Connected? <==> report.Reported? && report.projectReady)
        && file.content == old(file.content) && persistedLease == old(persistedLease)
      // It keeps a selection the report still lists, else takes the report's only host, else none.
      ensures old(T.Kind(View(), ProjectJob)) && report.Reported? && report.projectReady ==>
        && (old(T.StillListed(View(), report.clusters)) ==> selected == old(selected))
        && (forall i :: !old(T.StillListed(View(), report.clusters)) && T.OnlyHost(report.clusters, i) ==>
              && selected.Some? && selected.value.project == projectId
              && selected.value.cluster == report.clusters[i].name && selected.value.location == report.clusters[i].location)
        && (!old(T.StillListed(View(), report.clusters)) && (forall i :: !T.OnlyHost(report.clusters, i)) ==> selected.None?)
    {
      if T.Kind(View(), ProjectJob) { T.ProjectReportSelects(View(), file.content, report, e); }
      T.PollKept(View(), file.content, report, e);
      T.PollMeans(View(), file.content, report, e);
      RefreshDone();
      hide T.Inv, Applied, T.StillListed, T.OnlyHost;
      if job.None? { return; }
      var j := job.value;
      job := None;
      ApplyReport(file, j, report, e);
    }

    /** One maintenance pass. */
    method Tick(file: LeaseFile, done: Option<Report>, e: Surroundings)
      requires Valid()
      modifies this, file
      ensures (View(), file.content) == M.Tick(old(View()), old(file.content), done, e)
      ensures Valid()
      // A stale tab lets go, applies no report and writes nothing; a quiet one does nothing at all.
      ensures old(Stale(file)) ==> T.Quiet(View()) && file.content == old(file.content) && selected == old(selected)
      ensures old(T.Quiet(View())) ==> View() == old(View()) && file.content == old(file.content)
      // A target comes into use only from the attached job's ready report.
      ensures InUse().Some? && InUse() != old(InUse()) ==>
        && old(job).Some? && InUse() == old(job).value.target
        && done.Some? && done.value.Reported? && done.value.ready
    {
      T.TickKept(View(), file.content, done, e);
      var detached := Reconcile(file);
      if detached { return; }
      if done.Some? && job.Some? {
        Poll(file, done.value, e);
        return;
      }
      if RefreshDue(View(), e.now, REFRESH_INTERVAL_SECONDS) {
        Refresh();
      }
    }
  }
}
