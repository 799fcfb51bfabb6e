/** The maintenance queue and ownership arbitration as one state machine. Every step is one
    committed transaction; a step whose guard fails changes nothing. */
module MaintenanceProtocol {
  import opened Common
  import opened MaintenanceModel
  import opened MaintenanceOwnership
  import opened MaintenanceWork
  import JobRegistry
  import Checkpoints

  datatype OwnershipOp =
    | Sync(owner: string, submission: string, kind: ReservationKind, selectors: seq<Selector>)
    | Release(owner: string, submission: string)
    | ReleaseStale(known: set<string>)
    | CreateMonitor(m: int, status: MonitorStatus)
    | Discover(news: News, keys: seq<Name>)
    | SetMonitor(m: int, status: MonitorStatus)
    | DeleteMonitor(m: int, tag: string)
    | Exclude(o: Owner, tables: set<Name>)

  datatype WorkOp =
    | Signal(n: Name, snapshot: int, complete: bool)
    | ClaimScan(n: Name, worker: string, lease: int, minimum: int)
    | FinishScan(n: Name, worker: string, claimed: int)
    | RetryScan(n: Name, worker: string, at: Instant)
    | Refresh(n: Name, o: Owner)
    | RecordInventory(n: Name)
    | SetComplete(owner: Owner, complete: bool)
    | Enqueue(id: nat, n: Name, o: Owner, operation: string, window: string, notBefore: Instant)
    | ClaimTasks(worker: string, lease: int, picks: seq<Pick>)
    | Renew(id: nat, n: Name, worker: string, until: Instant)
    | RenewTask(id: nat, worker: string, until: Instant)
    | ReleaseTable(n: Name, worker: string)
    | FinishTask(id: nat, worker: string, status: TaskStatus, retryAt: Instant)
    | Recover

  datatype Op =
    | Tick(d: nat)
    | Registry(jobs: map<string, JobRegistry.JobRow>, snapshots: map<string, Checkpoints.Snapshot>)
    | Own(o: OwnershipOp)
    | Work(w: WorkOp)

  function Until(now: Instant, lease: int): (t: Instant)
    ensures now < t
  {
    now + if lease <= 0 then DEFAULT_LEASE else lease
  }

  ghost predicate OwnEnabled(db: Db, op: OwnershipOp) {
    match op
    case Sync(owner, submission, kind, selectors) => SyncAdmitted(db, owner, submission, selectors)
    case Release(owner, submission) => owner != "" && submission != ""
    case ReleaseStale(known) => true
    case CreateMonitor(m, _) => m !in db.monitors
    case Discover(news, keys) => DiscoveryAdmitted(db, news) && Lists(keys, Affected(db, news))
    case SetMonitor(m, _) => m in db.monitors
    case DeleteMonitor(m, _) => m in db.monitors
    case Exclude(_, _) => true
  }

  ghost function OwnEffect(db: Db, op: OwnershipOp): (r: Db)
    requires OwnEnabled(db, op)
  {
    match op
    case Sync(owner, submission, kind, selectors) => Synced(db, owner, submission, kind, selectors)
    case Release(owner, submission) => ReleasedDb(db, owner, submission)
    case ReleaseStale(known) => StaleReleased(db, known)
    case CreateMonitor(m, status) => db.(monitors := db.monitors[m := status])
    case Discover(news, keys) => Discovered(db, news, keys)
    case SetMonitor(m, status) => MonitorSet(db, m, status)
    case DeleteMonitor(m, tag) => MonitorDeleted(db, m, tag)
    case Exclude(o, tables) => TablesExcluded(db, o, tables)
  }

  ghost predicate WorkEnabled(db: Db, op: WorkOp) {
    match op
    case Signal(n, _, _) => n in db.states
    case ClaimScan(n, worker, _, minimum) => Scannable(db, n, minimum)
    case FinishScan(n, worker, _) => ScanHeld(db, n, worker)
    case RetryScan(n, worker, _) => ScanHeld(db, n, worker)
    case Refresh(n, o) => n in db.states && Refreshable(db.states[n], o, db.now)
    case RecordInventory(n) => n in db.states
    case SetComplete(_, _) => true
    case Enqueue(id, n, o, operation, window, _) => id !in db.tasks && Enqueueable(db, n, o, operation, window)
    case ClaimTasks(worker, lease, picks) => DistinctIds(picks) && ClaimBatch(db, worker, Until(db.now, lease), picks).Ok?
    case Renew(id, n, worker, _) => TaskHeld(db, id, worker) && TableHeld(db, n, worker)
    case RenewTask(id, worker, _) => TaskHeld(db, id, worker)
    case ReleaseTable(n, worker) => TableHeld(db, n, worker)
    case FinishTask(id, worker, _, _) => TaskHeld(db, id, worker)
    case Recover => true
  }

  function SetState(db: Db, n: Name, s: TableState): (r: Db) {
    db.(states := db.states[n := s])
  }

  ghost function WorkEffect(db: Db, op: WorkOp): (r: Db)
    requires WorkEnabled(db, op)
  {
    match op
    case Signal(n, snapshot, complete) => SetState(db, n, Signalled(db.states[n], db.now, snapshot, complete))
    case ClaimScan(n, worker, lease, _) => SetState(db, n, Scanning(db.states[n], worker, Until(db.now, lease)))
    case FinishScan(n, _, claimed) => SetState(db, n, ScanFinished(db.states[n], db.now, claimed))
    case RetryScan(n, _, at) => SetState(db, n, ScanRetried(db.states[n], at))
    case Refresh(n, _) => SetState(db, n, Refreshed(db.states[n], db.now))
    case SetComplete(owner, complete) => db.(states := Completed(db.states, owner, complete))
    case RecordInventory(n) => SetState(db, n, db.states[n].(lastInventory := Some(db.now)))
    case Enqueue(id, n, o, operation, window, notBefore) => db.(tasks := db.tasks[id := NewTask(n, o, operation, window, notBefore)])
    case ClaimTasks(worker, lease, picks) => ClaimBatch(db, worker, Until(db.now, lease), picks).value
    case Renew(id, n, _, until) =>
      SetState(db, n, db.states[n].(leaseUntil := Some(until))).(tasks := db.tasks[id := db.tasks[id].(leaseUntil := Some(until))])
    case RenewTask(id, _, until) => db.(tasks := db.tasks[id := db.tasks[id].(leaseUntil := Some(until))])
    case ReleaseTable(n, _) => SetState(db, n, db.states[n].(leaseOwner := None, leaseUntil := None))
    case FinishTask(id, _, status, retryAt) =>
      db.(tasks := db.tasks[id := db.tasks[id].(status := status, leaseOwner := None, leaseUntil := None,
        notBefore := if status == Retry then retryAt else db.tasks[id].notBefore)])
    case Recover => Recovered(db)
  }

  ghost predicate Enabled(db: Db, op: Op) {
    match op
    case Own(o) => OwnEnabled(db, o)
    case Work(w) => WorkEnabled(db, w)
    case _ => true
  }

  ghost function Apply(db: Db, op: Op): (r: Db) {
    match op
    case Tick(d) => db.(now := db.now + d)
    case Registry(jobs, snapshots) => db.(jobs := jobs, snapshots := snapshots)
    case Own(o) => if OwnEnabled(db, o) then OwnEffect(db, o) else db
    case Work(w) => if WorkEnabled(db, w) then WorkEffect(db, w) else db
  }

  /** The state after the first `k` steps of a run. */
  ghost function At(db: Db, ops: seq<Op>, k: nat): (r: Db)
    requires k <= |ops|
  {
    if k == 0 then db else Apply(At(db, ops, k - 1), ops[k - 1])
  }
}
