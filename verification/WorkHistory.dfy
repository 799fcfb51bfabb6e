/** When a scan or task step goes through, and what it writes to a table's row and to a task. */
module WorkHistory {
  import opened Common
  import opened MaintenanceModel
  import opened MaintenanceOwnership
  import opened MaintenanceWork
  import opened MaintenanceProtocol
  import opened BatchClaim

  // ---- When a step goes through ----

  predicate Past(until: Option<Instant>, now: Instant) {
    until.Some? ==> until.value < now
  }

  predicate RunsUnder(db: Db, s: TableState) {
    s.ownerType == MonitorType ==> s.owner.Monitor? && s.owner.id in db.monitors && db.monitors[s.owner.id] == Active
  }

  /** A scan is due at its instant, or, for an unprioritised claim, when a managed table has not been
      inspected for an hour. */
  predicate ScanDue(s: TableState, now: Instant, minimum: int) {
    if s.nextInventory.Some? then s.nextInventory.value <= now
    else minimum <= 0 && s.ownerType in {JobType, MonitorType} && Past(s.lastInventory, now - 3_600_000_000)
  }

  lemma ScanStepsWhen(db: Db, op: WorkOp)
    ensures op.ClaimScan? ==> (WorkEnabled(db, op) <==> op.n in db.states && var s := db.states[op.n];
      && s.complete && ScanDue(s, db.now, op.minimum) && op.minimum <= s.priority && 0 <= s.priority
      && Past(s.invUntil, db.now) && Past(s.leaseUntil, db.now) && RunsUnder(db, s))
    ensures op.FinishScan? || op.RetryScan? ==> (WorkEnabled(db, op) <==> op.n in db.states && db.states[op.n].invOwner == Some(op.worker))
    ensures op.Refresh? ==> (WorkEnabled(db, op) <==> op.n in db.states && var s := db.states[op.n];
      s.owner == op.o && s.complete && Past(s.invUntil, db.now))
    ensures op.Signal? || op.RecordInventory? ==> (WorkEnabled(db, op) <==> op.n in db.states)
  {
  }

  predicate HoldsTask(db: Db, id: nat, worker: string) {
    id in db.tasks && db.tasks[id].status == Leased && db.tasks[id].leaseOwner == Some(worker)
  }

  predicate HoldsTable(db: Db, n: Name, worker: string) {
    n in db.states && db.states[n].leaseOwner == Some(worker)
  }

  lemma TaskStepsWhen(db: Db, op: WorkOp)
    ensures op.Enqueue? ==> (WorkEnabled(db, op) <==>
      && op.id !in db.tasks && op.n in db.states && db.states[op.n].owner == op.o && RunsUnder(db, db.states[op.n])
      && forall id :: id in db.tasks && db.tasks[id].table == op.n && db.tasks[id].operation == op.operation ==>
           db.tasks[id].status !in {Queued, Retry, TaskStatus.Leased} && db.tasks[id].window != op.window)
    ensures op.Renew? ==> (WorkEnabled(db, op) <==> HoldsTask(db, op.id, op.worker) && HoldsTable(db, op.n, op.worker))
    ensures op.RenewTask? || op.FinishTask? ==> (WorkEnabled(db, op) <==> HoldsTask(db, op.id, op.worker))
    ensures op.ReleaseTable? ==> (WorkEnabled(db, op) <==> HoldsTable(db, op.n, op.worker))
    ensures op.Recover? || op.SetComplete? ==> WorkEnabled(db, op)
  {
  }

  /** The ownership steps that `OwnershipHistory` and `MonitorHistory` say nothing about, and the clock and the
      registry, which move on their own. */
  lemma OtherStepsWhen(db: Db, op: Op)
    ensures op.Own? && op.o.Release? ==> (Enabled(db, op) <==> op.o.owner != "" && op.o.submission != "")
    ensures op.Own? && (op.o.ReleaseStale? || op.o.Exclude?) ==> Enabled(db, op)
    ensures op.Own? && op.o.CreateMonitor? ==> (Enabled(db, op) <==> op.o.m !in db.monitors)
    ensures op.Own? && op.o.CreateMonitor? && Enabled(db, op) ==> Apply(db, op) == db.(monitors := db.monitors[op.o.m := op.o.status])
    ensures op.Own? && (op.o.SetMonitor? || op.o.DeleteMonitor?) ==> (Enabled(db, op) <==> op.o.m in db.monitors)
    ensures op.Registry? ==> Enabled(db, op) && Apply(db, op) == db.(jobs := op.jobs, snapshots := op.snapshots)
    ensures op.Tick? ==> Enabled(db, op) && Apply(db, op) == db.(now := db.now + op.d)
  {
  }

  // ---- A table's row after a step ----

  /** A signal that names another snapshot of a table whose snapshot is complete, now or by this signal. */
  predicate CallsForScan(s: TableState, op: WorkOp, n: Name) {
    op.Signal? && op.n == n && op.snapshot != 0 && op.snapshot != s.lastSnapshot && (s.complete || op.complete)
  }

  predicate On(op: WorkOp, n: Name) {
    match op
    case Enqueue(_, _, _, _, _, _) => false
    case ClaimTasks(_, _, _) => false
    case RenewTask(_, _, _) => false
    case FinishTask(_, _, _, _) => false
    case Recover => false
    case SetComplete(_, _) => false
    case _ => op.n == n
  }

  function AtLeast(a: int, b: int): (m: int) {
    if a < b then b else a
  }

  /** The schedule and the snapshot cursor: a scan is called for by a signal, a refresh or a newer
      snapshot found at its end, put off by a claim or a retry, and cleared by a clean end. */
  lemma ScheduleAfter(db: Db, op: WorkOp, n: Name)
    requires WorkEnabled(db, op) && n in db.states && !op.ClaimTasks? && !op.Recover?
    ensures n in WorkEffect(db, op).states
    ensures var s, r := db.states[n], WorkEffect(db, op).states[n];
      var missed := op.FinishScan? && s.lastSnapshot != op.claimed;
      && r.nextInventory == (
        if CallsForScan(s, op, n) || (On(op, n) && (op.Refresh? || missed)) then Some(db.now)
        else if On(op, n) && op.ClaimScan? then Some(db.now + if op.lease <= 0 then 900_000_000 else op.lease)
        else if On(op, n) && op.RetryScan? then Some(op.at)
        else if On(op, n) && op.FinishScan? then None else s.nextInventory)
      && r.priority == (
        if CallsForScan(s, op, n) || (On(op, n) && missed) then AtLeast(s.priority, 50)
        else if On(op, n) && op.FinishScan? then 0 else if On(op, n) && op.Refresh? then 100 else s.priority)
      && r.lastSnapshot == (if On(op, n) && op.Signal? && op.snapshot != 0 then op.snapshot else s.lastSnapshot)
      && r.lastInventory == (if On(op, n) && op.RecordInventory? then Some(db.now) else s.lastInventory)
      && r.complete == (
        if On(op, n) && op.Signal? then s.complete || op.complete
        else if op.SetComplete? && s.owner == op.owner then op.complete else s.complete)
  {
  }

  /** The leases: a scan claim takes the inventory lease and its end gives it back; a renewal moves the
      execution lease and a release ends it; nobody's ownership changes. */
  lemma LeasesAfter(db: Db, op: WorkOp, n: Name)
    requires WorkEnabled(db, op) && n in db.states && !op.ClaimTasks? && !op.Recover?
    ensures n in WorkEffect(db, op).states
    ensures var s, r := db.states[n], WorkEffect(db, op).states[n];
      && r.owner == s.owner && r.ownerType == s.ownerType
      && r.invOwner == (if On(op, n) && op.ClaimScan? then Some(op.worker) else if On(op, n) && (op.FinishScan? || op.RetryScan?) then None else s.invOwner)
      && r.invUntil == (
        if On(op, n) && op.ClaimScan? then Some(db.now + if op.lease <= 0 then 900_000_000 else op.lease)
        else if On(op, n) && (op.FinishScan? || op.RetryScan?) then None else s.invUntil)
      && r.leaseOwner == (if On(op, n) && op.ReleaseTable? then None else s.leaseOwner)
      && r.leaseUntil == (if On(op, n) && op.Renew? then Some(op.until) else if On(op, n) && op.ReleaseTable? then None else s.leaseUntil)
  {
  }

  // ---- A task after a step ----

  lemma TaskAfter(db: Db, op: WorkOp, id: nat)
    requires WorkEnabled(db, op) && !op.ClaimTasks? && !op.Recover?
    ensures Lookup(WorkEffect(db, op).tasks, id) == (
      if op.Enqueue? && op.id == id then Some(Task(op.n, op.o, op.operation, op.window, Queued, None, None, op.notBefore, 0))
      else if id !in db.tasks then None
      else if (op.Renew? || op.RenewTask?) && op.id == id then Some(db.tasks[id].(leaseUntil := Some(op.until)))
      else if op.FinishTask? && op.id == id then
        Some(db.tasks[id].(status := op.status, leaseOwner := None, leaseUntil := None,
                           notBefore := if op.status == Retry then op.retryAt else db.tasks[id].notBefore))
      else Some(db.tasks[id]))
  {
  }

  /** The task's worker may be gone: its lease ran out. */
  predicate Abandoned(t: Task, now: Instant) {
    t.status == TaskStatus.Leased && t.leaseUntil.Some? && t.leaseUntil.value < now
  }

  /** No monitor stands behind the task any more. */
  predicate Masterless(db: Db, t: Task) {
    t.owner.DeletedMonitor? || (t.owner.Monitor? && !(t.owner.id in db.monitors && db.monitors[t.owner.id] == Active))
  }

  /** Recovery puts abandoned tasks back to wait from now on, cancels what waits for a monitor that is
      gone or paused, and drops every execution lease that has run out. */
  lemma AfterRecovery(db: Db, id: nat, n: Name)
    ensures var r := WorkEffect(db, Recover);
      && r.tasks.Keys == db.tasks.Keys && r.states.Keys == db.states.Keys
      && (id in db.tasks ==> var t, u := db.tasks[id], r.tasks[id];
            var waits := Abandoned(t, db.now) || t.status in {Queued, Retry};
            && u.status == (if waits && Masterless(db, t) then Cancelled else if Abandoned(t, db.now) then Retry else t.status)
            && u.notBefore == (if Abandoned(t, db.now) then db.now else t.notBefore)
            && (u.leaseOwner, u.leaseUntil) ==
                 (if Abandoned(t, db.now) || (waits && Masterless(db, t)) then (None, None) else (t.leaseOwner, t.leaseUntil))
            && u == t.(status := u.status, notBefore := u.notBefore, leaseOwner := u.leaseOwner, leaseUntil := u.leaseUntil))
      && (n in db.states ==> var s := db.states[n];
            r.states[n] == if s.leaseUntil.Some? && s.leaseUntil.value < db.now then s.(leaseOwner := None, leaseUntil := None) else s)
  {
  }
}
