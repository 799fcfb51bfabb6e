/** Inventory scans and maintenance tasks on a table. */
module MaintenanceWork {
  import opened Common
  import opened MaintenanceModel

  // ---- Inventory ----

  /** A commit signal counts when it carries a snapshot id other than the last one. */
  predicate Differs(previous: int, current: int) {
    current != 0 && current != previous
  }

  function Signalled(s: TableState, now: Instant, snapshot: int, complete: bool): (r: TableState) {
    var changed := Differs(s.lastSnapshot, snapshot);
    var due := changed && (s.complete || complete);
    s.(nextInventory := if due then Some(now) else s.nextInventory,
       priority := if due && s.priority < 50 then 50 else s.priority,
       complete := s.complete || complete,
       lastSnapshot := if changed then snapshot else s.lastSnapshot)
  }

  /** A job reports whether its tables hold a complete snapshot. */
  function Completed(states: map<Name, TableState>, o: Owner, complete: bool): (r: map<Name, TableState>) {
    map n | n in states :: if states[n].owner == o then states[n].(complete := complete) else states[n]
  }

  /** The queue-mode inventory claim: due, at the wanted priority, and idle in both ways. */
  predicate Scannable(db: Db, n: Name, minimum: int) {
    && n in db.states
    && var s := db.states[n];
       && s.complete
       && (|| (s.nextInventory.Some? && s.nextInventory.value <= db.now)
           || (minimum <= 0 && s.nextInventory.None? && (s.ownerType == JobType || s.ownerType == MonitorType)
               && (s.lastInventory.None? || s.lastInventory.value < db.now - HOUR)))
       && minimum <= s.priority && 0 <= s.priority
       && Free(s.invUntil, db.now) && Free(s.leaseUntil, db.now)
       && (s.ownerType != MonitorType || MonitorActive(db, s.owner))
  }

  function Scanning(s: TableState, worker: string, until: Instant): (r: TableState) {
    s.(invOwner := Some(worker), invUntil := Some(until), nextInventory := Some(until))
  }

  /** The scan covered everything signalled up to `claimed`; anything newer is due at once. */
  function ScanFinished(s: TableState, now: Instant, claimed: int): (r: TableState) {
    var newer := s.lastSnapshot != claimed;
    s.(invOwner := None, invUntil := None,
       nextInventory := if newer then Some(now) else None,
       priority := if newer then (if s.priority < 50 then 50 else s.priority) else 0)
  }

  function ScanRetried(s: TableState, at: Instant): (r: TableState) {
    s.(invOwner := None, invUntil := None, nextInventory := Some(at))
  }

  predicate Refreshable(s: TableState, o: Owner, now: Instant) {
    s.owner == o && s.complete && Free(s.invUntil, now)
  }

  function Refreshed(s: TableState, now: Instant): (r: TableState) {
    s.(nextInventory := Some(now), priority := 100)
  }

  // ---- Tasks ----

  predicate HasActive(tasks: map<nat, Task>, n: Name, operation: string) {
    exists id :: id in tasks && tasks[id].table == n && tasks[id].operation == operation && ActiveTask(tasks[id])
  }

  /** The unique idempotency key: table, operation and schedule window. */
  predicate Recorded(tasks: map<nat, Task>, n: Name, operation: string, window: string) {
    exists id :: id in tasks && tasks[id].table == n && tasks[id].operation == operation && tasks[id].window == window
  }

  predicate Enqueueable(db: Db, n: Name, o: Owner, operation: string, window: string) {
    && n in db.states && db.states[n].owner == o
    && (db.states[n].ownerType != MonitorType || MonitorActive(db, o))
    && !HasActive(db.tasks, n, operation)
    && !Recorded(db.tasks, n, operation, window)
  }

  function NewTask(n: Name, o: Owner, operation: string, window: string, notBefore: Instant): (t: Task) {
    Task(n, o, operation, window, Queued, None, None, notBefore, 0)
  }

  /** A task as the unlocked candidate query saw it. */
  datatype Pick = Pick(id: nat, owner: Owner)

  /** The query selects each row once. */
  ghost predicate DistinctIds(picks: seq<Pick>) {
    forall i, j :: 0 <= i < j < |picks| ==> picks[i].id != picks[j].id
  }

  predicate Present(db: Db, p: Pick) {
    p.id in db.tasks && db.tasks[p.id].table in db.states
  }

  /** Ownership moved since the query: the task is cancelled instead of leased. */
  predicate Rejected(db: Db, p: Pick)
    requires Present(db, p)
  {
    var t := db.tasks[p.id];
    var w := Winner(db.reservations, t.table);
    t.owner != p.owner || db.states[t.table].owner != p.owner || (w.Some? && Job(w.value.owner) != p.owner)
  }

  predicate Accepted(db: Db, p: Pick) {
    Present(db, p) && Pending(db.tasks[p.id]) && !Rejected(db, p)
  }

  predicate Idle(s: TableState, now: Instant) {
    Free(s.leaseUntil, now) && Free(s.invUntil, now)
  }

  function LeasedTask(t: Task, worker: string, until: Instant): (r: Task) {
    t.(status := Leased, leaseOwner := Some(worker), leaseUntil := Some(until), attempts := t.attempts + 1)
  }

  function LeasedState(s: TableState, worker: string, until: Instant): (r: TableState) {
    s.(leaseOwner := Some(worker), leaseUntil := Some(until))
  }

  /** One turn of the claim loop; an error rolls the whole batch back. */
  function ClaimOne(db: Db, worker: string, until: Instant, p: Pick): (r: Result<Db>) {
    if !Present(db, p) then Err("task or table row is gone")
    else
      var t := db.tasks[p.id];
      if !Pending(t) then Ok(db)
      else if Rejected(db, p) then Ok(db.(tasks := db.tasks[p.id := Cancel(t)]))
      else if !Idle(db.states[t.table], db.now) then Err("maintenance table was lost while claiming")
      else Ok(db.(states := db.states[t.table := LeasedState(db.states[t.table], worker, until)],
                  tasks := db.tasks[p.id := LeasedTask(t, worker, until)]))
  }

  function ClaimBatch(db: Db, worker: string, until: Instant, picks: seq<Pick>): (r: Result<Db>) {
    if picks == [] then Ok(db)
    else
      var before := ClaimBatch(db, worker, until, picks[..|picks| - 1]);
      if before.Err? then before else ClaimOne(before.value, worker, until, picks[|picks| - 1])
  }

  predicate TaskHeld(db: Db, id: nat, worker: string) {
    id in db.tasks && db.tasks[id].status == Leased && db.tasks[id].leaseOwner == Some(worker)
  }

  predicate TableHeld(db: Db, n: Name, worker: string) {
    n in db.states && db.states[n].leaseOwner == Some(worker)
  }

  predicate ScanHeld(db: Db, n: Name, worker: string) {
    n in db.states && db.states[n].invOwner == Some(worker)
  }

  /** A waiting task whose monitor is gone or not active. */
  predicate Orphaned(db: Db, t: Task) {
    t.owner.DeletedMonitor? || (t.owner.Monitor? && !MonitorActive(db, t.owner))
  }

  predicate Expired(until: Option<Instant>, now: Instant) {
    until.Some? && until.value < now
  }

  function RecoveredTask(db: Db, t: Task): (r: Task) {
    var u := if t.status == Leased && Expired(t.leaseUntil, db.now)
             then t.(status := Retry, leaseOwner := None, leaseUntil := None, notBefore := db.now) else t;
    if Pending(u) && Orphaned(db, u) then Cancel(u) else u
  }

  function RecoveredState(s: TableState, now: Instant): (r: TableState) {
    if Expired(s.leaseUntil, now) then s.(leaseOwner := None, leaseUntil := None) else s
  }

  function Recovered(db: Db): (r: Db) {
    db.(tasks := map id | id in db.tasks :: RecoveredTask(db, db.tasks[id]),
        states := map n | n in db.states :: RecoveredState(db.states[n], db.now))
  }
}
