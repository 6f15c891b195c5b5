/** The connection state machine of one portal tab and the lease file the tabs share
    (admin_console/connection_controller.py, admin_console/connection_persistence.py).

    Each transition is a function on `Tab`; the class ConnectionObject.Controller is the
    mutable object, proved to perform exactly these.  `log` records what was
    submitted, detached and verified, in order. */
module ConnectionController {
  import opened Options

  datatype Target = Target(project: string, cluster: string, location: string, namespace: string, source: string)

  datatype Phase = Disconnected | Connecting | Connected

  /** A level's lifecycle, and whether it shows an error. */
  datatype Level = Level(phase: Phase, error: bool)

  datatype JobKind = ProjectJob | ClusterJob | RefreshJob

  datatype Event =
    | Restored(lease: Target)                               // a usable lease read from disk
    | Submitted(kind: JobKind, project: string, target: Option<Target>)
    | Detached                                              // a cluster disconnect, an abort or a reconcile
    | Verified(job: nat)                                    // a job's report satisfied `connection_is_ready`

  /** `id` is the log position of the job's submission. */
  datatype Job = Job(kind: JobKind, project: string, target: Option<Target>, id: nat)

  datatype ClusterInfo = ClusterInfo(name: string, location: string, host: bool)

  /** What the background checks end with. */
  datatype Report =
    | Crashed
    | Reported(projectReady: bool, ready: bool, clusters: seq<ClusterInfo>, checkedAt: int)

  datatype Tab = Tab(
    account: string, projectId: string, selected: Option<Target>,
    project: Level, cluster: Level,
    verified: Option<Target>, verifiedAt: Option<int>,
    job: Option<Job>, persistenceError: bool, persistedLease: bool,
    log: seq<Event>)

  const Idle := Level(Disconnected, false)

  function ConnectedTarget(t: Tab): Option<Target> {
    if t.cluster.phase.Connected? then t.verified else None
  }

  predicate Working(t: Tab) {
    t.job.Some?
  }

  // ---- The lease file ----------------------------------------------------------------

  datatype Lease = Lease(account: string, target: Target, verifiedAt: int, usable: bool)

  /** `fits`: the stored text is within the size a load accepts. */
  datatype File = Absent | Present(lease: Lease, fits: bool)

  /** How the filesystem treats a save: it works, or it raises before or after the
      file has been replaced. */
  datatype Disk = Works | RaisesBefore | RaisesAfter

  /** The shape checks of the four names. */
  predicate WellFormed(t: Target) {
    t.project != "" && t.cluster != "" && t.location != "" && t.namespace != ""
  }

  predicate RecognisedSource(source: string) {
    source in {"kube-agents-host label", "manual selection", "provisioned state", "persisted selection"}
  }

  function Save(file: File, lease: Lease, disk: Disk, fits: bool): (r: (File, bool))
  {
    if lease.account == "" || !WellFormed(lease.target) || disk.RaisesBefore? then (file, false)
    else (Present(lease, fits), disk.Works?)
  }

  function Load(file: File, account: string): Option<Lease> {
    if file.Present? && file.fits && account != "" && file.lease.account == account && WellFormed(file.lease.target) then
      var t := file.lease.target;
      Some(file.lease.(target := t.(source := if RecognisedSource(t.source) then t.source else "persisted selection")))
    else None
  }

  // ---- Transitions without the file ---------------------------------------------------

  function SelectProject(t: Tab, projectId: string): Tab {
    if projectId == t.projectId || t.project.phase.Connected? || Working(t) then t
    else t.(projectId := projectId, selected := None, project := Idle, cluster := Idle, verified := None, verifiedAt := None)
  }

  /** None when the source raises: the target is in another project. */
  function SelectTarget(t: Tab, target: Option<Target>): Option<Tab> {
    if !t.project.phase.Connected? || ConnectedTarget(t).Some? || Working(t) then Some(t)
    else if target.Some? && target.value.project != t.projectId then None
    else Some(t.(selected := target, cluster := Idle))
  }

  function Submit(t: Tab, kind: JobKind, target: Option<Target>): Tab {
    if Working(t) then t
    else t.(job := Some(Job(kind, t.projectId, target, |t.log|)), log := t.log + [Submitted(kind, t.projectId, target)])
  }

  /** The part of `disconnect_cluster` before the file is touched. */
  function DropCluster(t: Tab): Tab {
    t.(job := if t.job.Some? && !t.job.value.kind.ProjectJob? then None else t.job,
       cluster := Idle, verified := None, verifiedAt := None, persistenceError := false,
       log := t.log + [Detached])
  }

  /** `disconnect_cluster(delete_persisted=False)`. */
  function ForgetCluster(t: Tab): Tab {
    DropCluster(t).(persistedLease := false)
  }

  function ConnectProject(t: Tab): Tab {
    Submit(ForgetCluster(t).(project := Level(Connecting, false)), ProjectJob, None)
  }

  function ConnectCluster(t: Tab): Tab {
    if !t.project.phase.Connected? || t.selected.None? then t
    else Submit(t.(cluster := Level(Connecting, false)), ClusterJob, t.selected)
  }

  function Refresh(t: Tab): Tab {
    if ConnectedTarget(t).None? then t else Submit(t, RefreshJob, ConnectedTarget(t))
  }

  function Resume(t: Tab): Tab {
    if t.selected.None? then t else Submit(t, RefreshJob, t.selected)
  }

  function Abort(t: Tab): Tab {
    if t.job.None? || t.job.value.kind.RefreshJob? then t
    else
      t.(job := None, cluster := Idle, verified := None, verifiedAt := None,
         project := if t.job.value.kind.ProjectJob? then Idle else t.project,
         log := t.log + [Detached])
  }

  // ---- Transitions with the file ---------------------------------------------------------

  /** `disconnect_cluster`; a delete that raises leaves the file and the lease flag. */
  function DisconnectCluster(t: Tab, file: File, deleteRaises: bool): (Tab, File) {
    if deleteRaises then (DropCluster(t), file) else (ForgetCluster(t), Absent)
  }

  function DisconnectProject(t: Tab, file: File, deleteRaises: bool): (Tab, File) {
    (ForgetCluster(Abort(t)).(project := Idle, selected := None), if deleteRaises then file else Absent)
  }

  function TargetForCluster(t: Tab, c: ClusterInfo, namespace: string): Target {
    Target(t.projectId, c.name, c.location, namespace, if c.host then "kube-agents-host label" else "manual selection")
  }

  function Hosts(clusters: seq<ClusterInfo>): seq<ClusterInfo> {
    if clusters == [] then [] else (if clusters[0].host then [clusters[0]] else []) + Hosts(clusters[1..])
  }

  function SelectDiscovered(t: Tab, clusters: seq<ClusterInfo>, namespace: string): Option<Target> {
    if t.selected.Some? && exists i | 0 <= i < |clusters| ::
         clusters[i].name == t.selected.value.cluster && clusters[i].location == t.selected.value.location
    then t.selected
    else if |Hosts(clusters)| == 1 then Some(TargetForCluster(t, Hosts(clusters)[0], namespace))
    else None
  }

  /** What the outside decides while a report is applied. */
  datatype Surroundings = Surroundings(disk: Disk, fits: bool, deleteRaises: bool, now: int, namespace: string)

  function Persist(t: Tab, file: File, target: Target, at: int, e: Surroundings): (Tab, File) {
    var (file', ok) := Save(file, Lease(t.account, target, at, true), e.disk, e.fits);
    (t.(persistedLease := ok, persistenceError := !ok), file')
  }

  function RequireRevalidation(t: Tab, file: File, target: Target, at: Option<int>, e: Surroundings): (Tab, File) {
    var (file', ok) := Save(file, Lease(t.account, target, if at.Some? then at.value else e.now, false), e.disk, e.fits);
    (t.(persistedLease := ok, persistenceError := !ok), if ok || e.deleteRaises then file' else Absent)
  }

  function Failed(): Level {
    Level(Disconnected, true)
  }

  /** A refresh or resume that did not come out ready. */
  function LoseCluster(t: Tab, file: File, job: Job, e: Surroundings): (Tab, File) {
    var at := t.verifiedAt;
    var (t', file') :=
      if job.target.Some? then RequireRevalidation(ForgetCluster(t), file, job.target.value, at, e) else (ForgetCluster(t), file);
    (t'.(cluster := Failed()), file')
  }

  /** A cluster job or a refresh that came out ready for `target`. */
  function GainCluster(t: Tab, file: File, job: Job, target: Target, at: int, e: Surroundings): (Tab, File) {
    Persist(t.(cluster := Level(Connected, false), verified := Some(target), verifiedAt := Some(at),
               selected := if job.kind.ClusterJob? then Some(target) else t.selected,
               log := t.log + [Verified(job.id)]),
            file, target, at, e)
  }

  /** A job's report, applied to a tab the job is no longer attached to. */
  function Applied(u: Tab, file: File, job: Job, report: Report, e: Surroundings): (Tab, File) {
    match job.kind
    case ProjectJob =>
      if report.Reported? && report.projectReady then
        (u.(project := Level(Connected, false), selected := SelectDiscovered(u, report.clusters, e.namespace)), file)
      else (u.(project := Failed(), cluster := Idle), file)
    case ClusterJob =>
      if report.Reported? && report.ready && job.target.Some? then GainCluster(u, file, job, job.target.value, report.checkedAt, e)
      else if report.Crashed? then (u.(cluster := Failed()), file)
      else (u.(cluster := Failed(), verified := None, verifiedAt := None), file)
    case RefreshJob =>
      if report.Reported? && report.ready && job.target.Some? then GainCluster(u, file, job, job.target.value, report.checkedAt, e)
      else LoseCluster(u, file, job, e)
  }

  /** `poll` once the attached job is done. */
  function Poll(t: Tab, file: File, report: Report, e: Surroundings): (Tab, File) {
    if t.job.None? then (t, file) else Applied(t.(job := None), file, t.job.value, report, e)
  }

  /** Whether the saved lease is still what this tab thinks it is. */
  predicate LeaseMatches(t: Tab, file: File, target: Target) {
    var p := Load(file, t.account);
    p.Some? && p.value.usable == ConnectedTarget(t).Some? && p.value.target == target
  }

  /** The target the tab's lease is for, if it holds one. */
  function Leased(t: Tab): Option<Target> {
    if !t.persistedLease then None
    else if ConnectedTarget(t).Some? then ConnectedTarget(t)
    else t.selected
  }

  /** `reconcile_persisted_lease`, and whether it detached the tab. */
  function Reconcile(t: Tab, file: File): (Tab, bool) {
    if Leased(t).None? || LeaseMatches(t, file, Leased(t).value) then (t, false)
    else (ForgetCluster(t).(cluster := Failed()), true)
  }

  predicate RefreshDue(t: Tab, now: int, interval: int) {
    ConnectedTarget(t).Some? && t.verifiedAt.Some? && !Working(t) && now - t.verifiedAt.value >= interval
  }

  const REFRESH_INTERVAL_SECONDS := 600

  /** One maintenance pass: reconcile, then poll, then refresh; it ends at the first
      that changes something.  `done` is the attached job's report, if it has one. */
  function Tick(t: Tab, file: File, done: Option<Report>, e: Surroundings): (Tab, File) {
    var (r, detached) := Reconcile(t, file);
    if detached then (r, file)
    else if done.Some? && r.job.Some? then Poll(r, file, done.value, e)
    else if RefreshDue(r, e.now, REFRESH_INTERVAL_SECONDS) then (Refresh(r), file)
    else (r, file)
  }

  // ---- How a tab comes to be ----------------------------------------------------------------

  function Fresh(account: string, projectId: string, selected: Option<Target>): Tab {
    Tab(account, projectId, selected, Idle, Idle, None, None, None, false, false, [])
  }

  function RestoredTab(account: string, target: Target, verifiedAt: int, usable: bool): Tab {
    Tab(account, target.project, Some(target), Level(Connected, false),
        if usable then Level(Connected, false) else Idle,
        if usable then Some(target) else None, Some(verifiedAt), None, false, true,
        if usable then [Restored(target)] else [])
  }
}
