/** What every reachable state of the maintenance tables satisfies. */
module MaintenanceInvariants {
  import opened Common
  import opened MaintenanceModel
  import opened MaintenanceOwnership
  import opened MaintenanceWork
  import opened MaintenanceProtocol

  /** No table owned by a monitor matches an active reservation. */
  ghost predicate Exclusive(states: map<Name, TableState>, rs: seq<Reservation>) {
    forall n :: n in states && states[n].owner.Monitor? ==> !IsReserved(rs, n)
  }

  predicate Rivals(t: Task, u: Task) {
    ActiveTask(t) && ActiveTask(u) && t.table == u.table && t.operation == u.operation
  }

  /** At most one queued, retry or leased task per table and operation. */
  ghost predicate OneActive(tasks: map<nat, Task>) {
    forall i, j :: i in tasks && j in tasks && Rivals(tasks[i], tasks[j]) ==> i == j
  }

  /** The owner type column agrees with the owner. */
  predicate Typed(s: TableState) {
    match s.owner
    case Monitor(_) => s.ownerType == MonitorType
    case Job(_) => s.ownerType == StreamingType || s.ownerType == SnapshotType || s.ownerType == JobType
    case Unmanaged => s.ownerType == UnmanagedType
    case StreamExcluded => s.ownerType == ExcludedType
    case DeletedMonitor(_) => s.ownerType == DeletedType
  }

  ghost predicate AllTyped(states: map<Name, TableState>) {
    forall n :: n in states ==> Typed(states[n])
  }

  /** A job's active reservations all carry one submission and one kind. */
  ghost predicate OneSubmission(rs: seq<Reservation>) {
    forall i, j :: 0 <= i < |rs| && 0 <= j < |rs| && rs[i].active && rs[j].active && rs[i].owner == rs[j].owner ==>
      rs[i].submission == rs[j].submission && rs[i].kind == rs[j].kind
  }

  ghost predicate Inv(db: Db) {
    Exclusive(db.states, db.reservations) && OneActive(db.tasks) && AllTyped(db.states) && OneSubmission(db.reservations)
  }

  // ---- Reservations as a table ----

  lemma {:induction false} UpsertedHas(rs: seq<Reservation>, r: Reservation, x: Reservation)
    requires x in Upserted(rs, r)
    ensures x == r || x in rs
  {
    if rs != [] && x != r && x != rs[0] {
      if !(rs[0].owner == r.owner && rs[0].submission == r.submission && rs[0].selector == r.selector) {
        UpsertedHas(rs[1..], r, x);
      }
    }
  }

  lemma {:induction false} UpsertedAllHas(rs: seq<Reservation>, owner: string, submission: string, kind: ReservationKind, sels: seq<Selector>, x: Reservation)
    requires x in UpsertedAll(rs, owner, submission, kind, sels)
    ensures x in rs || (x.owner == owner && x.submission == submission && x.kind == kind && x.active && x.selector in sels)
  {
    if sels != [] {
      var last := Reservation(owner, submission, kind, sels[|sels| - 1], true);
      var before := UpsertedAll(rs, owner, submission, kind, sels[..|sels| - 1]);
      UpsertedHas(before, last, x);
      if x != last {
        UpsertedAllHas(rs, owner, submission, kind, sels[..|sels| - 1], x);
      }
    }
  }

  lemma SyncedReservations(db: Db, owner: string, submission: string, kind: ReservationKind, sels: seq<Selector>)
    requires OneSubmission(db.reservations)
    ensures var rs := Synced(db, owner, submission, kind, sels).reservations;
      && OneSubmission(rs)
      && forall n :: IsReserved(rs, n) ==> IsReserved(db.reservations, n) || SelectedBy(sels, n)
  {
    var idle := Deactivated(db.reservations, owner);
    var rs := UpsertedAll(idle, owner, submission, kind, sels);
    forall k | 0 <= k < |rs| && rs[k].active
      ensures (rs[k].owner == owner && rs[k].submission == submission && rs[k].kind == kind && rs[k].selector in sels)
        || (rs[k].owner != owner && rs[k] in db.reservations)
    {
      UpsertedAllHas(idle, owner, submission, kind, sels, rs[k]);
      if rs[k] in idle {
        var i :| 0 <= i < |idle| && idle[i] == rs[k];
      }
    }
    forall n | IsReserved(rs, n) ensures IsReserved(db.reservations, n) || SelectedBy(sels, n) {
      var k :| 0 <= k < |rs| && Matches(rs[k], n);
    }
  }

  // ---- What ownership steps leave alone ----

  predicate SameLeases(s: TableState, r: TableState) {
    && s.leaseOwner == r.leaseOwner && s.leaseUntil == r.leaseUntil
    && s.invOwner == r.invOwner && s.invUntil == r.invUntil
    && s.lastSnapshot == r.lastSnapshot
  }

  predicate Unleased(s: TableState) {
    s.leaseOwner.None? && s.leaseUntil.None? && s.invOwner.None? && s.invUntil.None?
  }

  /** A task keeps its identity, and keeps its status and lease unless it was waiting and is cancelled. */
  predicate TaskKept(t: Task, u: Task) {
    && u.table == t.table && u.operation == t.operation && u.window == t.window
    && ((u.status == t.status && u.leaseOwner == t.leaseOwner && u.leaseUntil == t.leaseUntil) || (Pending(t) && u.status == Cancelled))
  }

  ghost predicate LeasesKept(states: map<Name, TableState>, after: map<Name, TableState>) {
    && (forall n :: n in states ==> n in after && SameLeases(states[n], after[n]))
    && (forall n :: n in after && n !in states ==> Unleased(after[n]))
  }

  ghost predicate TasksKept(tasks: map<nat, Task>, after: map<nat, Task>) {
    after.Keys == tasks.Keys && forall id :: id in tasks ==> TaskKept(tasks[id], after[id])
  }

  ghost predicate Gentle(db: Db, r: Db) {
    r.now == db.now && LeasesKept(db.states, r.states) && TasksKept(db.tasks, r.tasks)
  }

  lemma GentleTrans(a: Db, b: Db, c: Db)
    requires Gentle(a, b) && Gentle(b, c)
    ensures Gentle(a, c)
  {
  }

  lemma KeptTasksStaySingle(tasks: map<nat, Task>, after: map<nat, Task>)
    requires TasksKept(tasks, after) && OneActive(tasks)
    ensures OneActive(after)
  {
  }

  // ---- Arbitration ----

  /** One table's arbitration: other tables, reservations and monitors stay; a monitor ends up
      owning the table only if it did before or no reservation covers it. */
  ghost predicate Local(db: Db, r: Db, n: Name) {
    && Gentle(db, r)
    && r.reservations == db.reservations && r.monitors == db.monitors
    && (forall k :: k in db.states && k != n ==> k in r.states && r.states[k] == db.states[k])
    && (forall k :: k in r.states && k != n ==> k in db.states)
    && (n in r.states && r.states[n].owner.Monitor? && IsReserved(db.reservations, n) ==> n in db.states && db.states[n].owner.Monitor?)
    && (n in r.states && (n in db.states ==> Typed(db.states[n])) ==> Typed(r.states[n]))
  }

  lemma CancelledForKeeps(tasks: map<nat, Task>, n: Name, o: Owner)
    ensures TasksKept(tasks, CancelledFor(tasks, n, o)) && TasksKept(tasks, tasks)
  {
  }

  /** A new row for one table, with waiting tasks at most cancelled. */
  lemma RowIsLocal(db: Db, r: Db, n: Name, s: TableState)
    requires r == db.(targets := r.targets, states := db.states[n := s], tasks := r.tasks)
    requires if n in db.states then SameLeases(db.states[n], s) else Unleased(s)
    requires TasksKept(db.tasks, r.tasks)
    requires Typed(s) && (s.owner.Monitor? ==> !IsReserved(db.reservations, n))
    ensures Local(db, r, n)
  {
  }

  /** Arbitration that only re-labels targets. */
  lemma RelabelIsLocal(db: Db, r: Db, n: Name)
    requires r == db.(targets := r.targets)
    ensures Local(db, r, n)
  {
  }

  lemma ReconcileIsLocal(db: Db, n: Name, news: News)
    ensures Local(db, Reconcile(db, n, news), n)
  {
    hide Elected, Candidates, WithStatus;
    WinnerIsPreferred(db.reservations, n);
    var v, r := Decide(db, n), Reconcile(db, n, news);
    var moved := Moved(Lookup(db.states, n), db.now, v.move, FirstFor(db, n, v.move, news));
    if moved.1.Some? {
      CancelledForKeeps(db.tasks, n, moved.1.value);
    }
    if r.states == db.states {
      RelabelIsLocal(db, r, n);
    } else {
      RowIsLocal(db, r, n, r.states[n]);
    }
  }

  lemma LocalKeepsInv(db: Db, r: Db, n: Name)
    requires Inv(db) && Local(db, r, n)
    ensures Inv(r)
  {
  }

  lemma {:induction false} ReconcileAllKeepsInv(db: Db, keys: seq<Name>, news: News)
    requires Inv(db)
    ensures Inv(ReconcileAll(db, keys, news)) && Gentle(db, ReconcileAll(db, keys, news))
    decreases |keys|
  {
    if keys != [] {
      var d := Reconcile(db, keys[0], news);
      ReconcileIsLocal(db, keys[0], news);
      LocalKeepsInv(db, d, keys[0]);
      ReconcileAllKeepsInv(d, keys[1..], news);
      GentleTrans(db, d, ReconcileAll(d, keys[1..], news));
    }
  }

  lemma DiscoverKeepsInv(db: Db, news: News, keys: seq<Name>)
    requires Inv(db)
    ensures Inv(Discovered(db, news, keys)) && Gentle(db, Discovered(db, news, keys))
  {
    var d := Retargeted(db, news);
    assert d == db.(targets := d.targets);
    assert Gentle(db, d) && Inv(d);
    ReconcileAllKeepsInv(d, keys, news);
    GentleTrans(db, d, Discovered(db, news, keys));
  }

  // ---- Ownership steps ----

  lemma SyncKeepsInv(db: Db, owner: string, submission: string, kind: ReservationKind, sels: seq<Selector>)
    requires Inv(db)
    ensures var r := Synced(db, owner, submission, kind, sels); Inv(r) && Gentle(db, r)
  {
    var r := Synced(db, owner, submission, kind, sels);
    SyncedReservations(db, owner, submission, kind, sels);
    KeptTasksStaySingle(db.tasks, r.tasks);
  }

  /** Handing tables to reservation owners, or to nobody, under no more reservations than before. */
  lemma HandedKeepsInv(db: Db, r: Db)
    requires Inv(db) && TasksKept(db.tasks, r.tasks) && r.states.Keys == db.states.Keys
    requires forall n :: n in db.states ==> r.states[n] == db.states[n] || exists w :: r.states[n] == Handed(db.states[n], w)
    requires forall n :: IsReserved(r.reservations, n) ==> IsReserved(db.reservations, n)
    requires OneSubmission(r.reservations)
    ensures Inv(r) && LeasesKept(db.states, r.states)
  {
  }

  lemma ReleaseHands(db: Db, owner: string, submission: string)
    requires Released(db.reservations, owner, submission) != db.reservations
    ensures var r := ReleasedDb(db, owner, submission);
      && TasksKept(db.tasks, r.tasks) && r.states.Keys == db.states.Keys
      && forall n :: n in db.states ==> r.states[n] == db.states[n] || r.states[n] == Handed(db.states[n], Winner(r.reservations, n))
  {
  }

  lemma ReleaseKeepsInv(db: Db, owner: string, submission: string)
    requires Inv(db)
    ensures var r := ReleasedDb(db, owner, submission); Inv(r) && Gentle(db, r)
  {
    var r := ReleasedDb(db, owner, submission);
    if r.reservations == db.reservations {
      CancelledForKeeps(db.tasks, Name("", "", ""), Unmanaged);
    } else {
      ReleaseHands(db, owner, submission);
      HandedKeepsInv(db, r);
    }
  }

  lemma StaleKeepsInv(db: Db, known: set<string>)
    requires Inv(db)
    ensures var r := StaleReleased(db, known); Inv(r) && Gentle(db, r)
  {
    hide Winner, Current;
    var r := StaleReleased(db, known);
    forall n | n in db.states ensures r.states[n] == db.states[n] || r.states[n] == Handed(db.states[n], Winner(r.reservations, n)) {
    }
    HandedKeepsInv(db, r);
  }

  /** Steps that give no table to a monitor and change no reservation. */
  lemma DisownKeepsInv(db: Db, r: Db)
    requires Inv(db) && Gentle(db, r) && r.reservations == db.reservations && r.states.Keys == db.states.Keys
    requires forall n :: n in db.states ==> Typed(r.states[n]) && (r.states[n].owner.Monitor? ==> db.states[n].owner.Monitor?)
    ensures Inv(r)
  {
  }

  lemma SetMonitorKeepsInv(db: Db, m: int, status: MonitorStatus)
    requires Inv(db)
    ensures Inv(MonitorSet(db, m, status)) && Gentle(db, MonitorSet(db, m, status))
  {
    DisownKeepsInv(db, MonitorSet(db, m, status));
  }

  lemma ExcludeRows(db: Db, o: Owner, tables: set<Name>)
    requires AllTyped(db.states)
    ensures var r := TablesExcluded(db, o, tables);
      && LeasesKept(db.states, r.states) && r.states.Keys == db.states.Keys
      && forall n :: n in db.states ==> Typed(r.states[n]) && (r.states[n].owner.Monitor? ==> db.states[n].owner.Monitor?)
  {
  }

  lemma ExcludeKeepsInv(db: Db, o: Owner, tables: set<Name>)
    requires Inv(db)
    ensures Inv(TablesExcluded(db, o, tables)) && Gentle(db, TablesExcluded(db, o, tables))
  {
    ExcludeRows(db, o, tables);
    var r := TablesExcluded(db, o, tables);
    assert TasksKept(db.tasks, r.tasks);
    DisownKeepsInv(db, r);
  }

  lemma DeleteKeepsInv(db: Db, m: int, tag: string)
    requires Inv(db)
    ensures Inv(MonitorDeleted(db, m, tag)) && Gentle(db, MonitorDeleted(db, m, tag))
  {
    DisownKeepsInv(db, MonitorDeleted(db, m, tag));
  }

  lemma OwnKeepsInv(db: Db, op: OwnershipOp)
    requires Inv(db) && OwnEnabled(db, op)
    ensures Inv(OwnEffect(db, op)) && Gentle(db, OwnEffect(db, op))
  {
    match op
    case Sync(owner, submission, kind, sels) => SyncKeepsInv(db, owner, submission, kind, sels);
    case Release(owner, submission) => ReleaseKeepsInv(db, owner, submission);
    case ReleaseStale(known) => StaleKeepsInv(db, known);
    case Discover(news, keys) => DiscoverKeepsInv(db, news, keys);
    case SetMonitor(m, status) => SetMonitorKeepsInv(db, m, status);
    case DeleteMonitor(m, tag) => DeleteKeepsInv(db, m, tag);
    case Exclude(o, tables) => ExcludeKeepsInv(db, o, tables);
    case CreateMonitor(m, status) =>
      CancelledForKeeps(db.tasks, Name("", "", ""), Unmanaged);
  }

  // ---- Work steps ----

  /** Work steps move no table between owners and touch no reservation, monitor or target. */
  ghost predicate SameOwnership(db: Db, r: Db) {
    && r.now == db.now && r.reservations == db.reservations && r.monitors == db.monitors && r.targets == db.targets
    && r.states.Keys == db.states.Keys
    && (forall n :: n in db.states ==> r.states[n].owner == db.states[n].owner && r.states[n].ownerType == db.states[n].ownerType)
  }

  predicate Advances(t: Task, u: Task) {
    u.table == t.table && u.operation == t.operation && u.owner == t.owner && (!ActiveTask(t) ==> u.status == t.status)
  }

  /** A task that is not new keeps its identity, is active only if it was, and keeps a final status. */
  ghost predicate TasksAdvance(tasks: map<nat, Task>, after: map<nat, Task>) {
    tasks.Keys <= after.Keys && forall id :: id in tasks ==> Advances(tasks[id], after[id])
  }

  /** A step that writes at most one table's row and one task. */
  lemma PointUpdate(db: Db, r: Db, n: Name, id: nat)
    requires r == db.(states := r.states, tasks := r.tasks)
    requires r.states == db.states
      || (n in db.states && n in r.states && r.states == db.states[n := r.states[n]]
          && r.states[n].owner == db.states[n].owner && r.states[n].ownerType == db.states[n].ownerType)
    requires r.tasks == db.tasks
      || (id in r.tasks && r.tasks == db.tasks[id := r.tasks[id]] && (id in db.tasks ==> Advances(db.tasks[id], r.tasks[id])))
    ensures SameOwnership(db, r) && TasksAdvance(db.tasks, r.tasks)
  {
  }

  lemma ClaimOneFrame(db: Db, worker: string, until: Instant, p: Pick)
    requires ClaimOne(db, worker, until, p).Ok?
    ensures var r := ClaimOne(db, worker, until, p).value;
      SameOwnership(db, r) && TasksAdvance(db.tasks, r.tasks) && r.tasks.Keys == db.tasks.Keys
  {
    PointUpdate(db, ClaimOne(db, worker, until, p).value, db.tasks[p.id].table, p.id);
  }

  lemma TablePointFrame(db: Db, op: WorkOp)
    requires WorkEnabled(db, op)
    requires op.Signal? || op.ClaimScan? || op.FinishScan? || op.RetryScan? || op.Refresh? || op.RecordInventory? || op.ReleaseTable? || op.Renew?
    ensures var r := WorkEffect(db, op);
      SameOwnership(db, r) && TasksAdvance(db.tasks, r.tasks) && r.tasks.Keys == db.tasks.Keys
  {
    PointUpdate(db, WorkEffect(db, op), op.n, if op.Renew? then op.id else 0);
  }

  lemma TaskPointFrame(db: Db, op: WorkOp)
    requires WorkEnabled(db, op) && (op.Enqueue? || op.RenewTask? || op.FinishTask?)
    ensures var r := WorkEffect(db, op);
      && SameOwnership(db, r) && TasksAdvance(db.tasks, r.tasks)
      && (!op.Enqueue? ==> r.tasks.Keys == db.tasks.Keys)
  {
  }

  lemma {:induction false} BatchFrame(db: Db, worker: string, until: Instant, picks: seq<Pick>)
    requires ClaimBatch(db, worker, until, picks).Ok?
    ensures var r := ClaimBatch(db, worker, until, picks).value;
      SameOwnership(db, r) && TasksAdvance(db.tasks, r.tasks) && r.tasks.Keys == db.tasks.Keys
  {
    if picks != [] {
      BatchFrame(db, worker, until, picks[..|picks| - 1]);
      var d := ClaimBatch(db, worker, until, picks[..|picks| - 1]).value;
      ClaimOneFrame(d, worker, until, picks[|picks| - 1]);
    }
  }

  lemma WorkFrame(db: Db, op: WorkOp)
    requires WorkEnabled(db, op)
    ensures var r := WorkEffect(db, op);
      && SameOwnership(db, r) && TasksAdvance(db.tasks, r.tasks)
      && (!op.Enqueue? ==> r.tasks.Keys == db.tasks.Keys)
  {
    if op.ClaimTasks? {
      BatchFrame(db, op.worker, Until(db.now, op.lease), op.picks);
    } else if op.Recover? {
    } else if op.SetComplete? {
      assert SameOwnership(db, WorkEffect(db, op));
    } else if op.Enqueue? || op.RenewTask? || op.FinishTask? {
      TaskPointFrame(db, op);
    } else {
      TablePointFrame(db, op);
    }
  }

  lemma WorkKeepsInv(db: Db, op: WorkOp)
    requires Inv(db) && WorkEnabled(db, op)
    ensures Inv(WorkEffect(db, op))
  {
    WorkFrame(db, op);
    var r := WorkEffect(db, op);
    SameOwnershipKeepsTypes(db, r);
  }

  lemma SameOwnershipKeepsTypes(db: Db, r: Db)
    requires SameOwnership(db, r)
    ensures AllTyped(db.states) ==> AllTyped(r.states)
    ensures Exclusive(db.states, db.reservations) ==> Exclusive(r.states, r.reservations)
  {
  }

  // ---- Runs ----

  lemma StepKeepsInv(db: Db, op: Op)
    requires Inv(db)
    ensures Inv(Apply(db, op))
  {
    match op
    case Own(o) =>
      if OwnEnabled(db, o) {
        OwnKeepsInv(db, o);
      }
    case Work(w) =>
      if WorkEnabled(db, w) {
        WorkKeepsInv(db, w);
      }
    case _ =>
  }

  /** In every reachable state monitors own no reserved table, each table and operation has at
      most one active task, owner types agree with owners, and a job reserves under one submission. */
  lemma {:induction false} RunKeepsInv(db: Db, ops: seq<Op>, k: nat)
    requires Inv(db) && k <= |ops|
    ensures Inv(At(db, ops, k))
  {
    hide Apply;
    if k > 0 {
      RunKeepsInv(db, ops, k - 1);
      StepKeepsInv(At(db, ops, k - 1), ops[k - 1]);
    }
  }

  lemma FinishedStep(db: Db, op: Op, id: nat)
    requires Inv(db) && id in db.tasks && !ActiveTask(db.tasks[id])
    ensures id in Apply(db, op).tasks && Apply(db, op).tasks[id].status == db.tasks[id].status
  {
    match op
    case Own(o) =>
      if OwnEnabled(db, o) {
        OwnKeepsInv(db, o);
        assert TaskKept(db.tasks[id], OwnEffect(db, o).tasks[id]);
      }
    case Work(w) =>
      if WorkEnabled(db, w) {
        WorkFrame(db, w);
        assert Advances(db.tasks[id], WorkEffect(db, w).tasks[id]);
      }
    case _ =>
  }

  /** A succeeded, skipped, failed or cancelled task never becomes active again. */
  lemma {:induction false} FinishedForever(db: Db, ops: seq<Op>, i: nat, k: nat, id: nat)
    requires Inv(db) && i <= k <= |ops|
    requires id in At(db, ops, i).tasks && !ActiveTask(At(db, ops, i).tasks[id])
    ensures id in At(db, ops, k).tasks && At(db, ops, k).tasks[id].status == At(db, ops, i).tasks[id].status
  {
    hide Apply;
    if i < k {
      FinishedForever(db, ops, i, k - 1, id);
      RunKeepsInv(db, ops, k - 1);
      FinishedStep(At(db, ops, k - 1), ops[k - 1], id);
    }
  }
}
