/** Workers, control plane and recovery as one state machine over the shared rows.

    Every store call is one atomic step, except a fenced write: its first check locks the
    registry row, time and other steps may pass, and its commit re-checks before the
    checkpoint change becomes visible. A step whose guard fails, or that would have to
    wait for a locked row, changes nothing. */
module WorkerProtocol {
  import opened Common
  import opened JobRegistry
  import opened Checkpoints
  import opened Rebuild
  import opened ScopedRebuild

  datatype ArchiveRow = ArchiveRow(
    job: string,
    submission: string,
    stateKey: string,
    reason: string,
    config: Config,
    states: seq<ArchivedState>)

  /** An open fenced write: its token, its one store call, and the instant of its first check. */
  datatype Tx = Tx(token: Token, mutation: Mutation, began: Instant)

  datatype World = World(
    now: Instant,
    jobs: map<string, JobRow>,
    tables: Tables,
    archives: map<string, ArchiveRow>,
    issued: set<string>,        // every submission and archive id ever handed out
    txs: map<nat, Tx>)

  datatype Op =
    | Tick(d: nat)
    | Submit(job: string, row: JobRow)
    | DeleteJob(job: string)
    | Claim(job: string, role: Role, owner: string, until: Instant, uuid: string)
    | Renew(job: string, submission: string, owner: string, until: Instant)
    | Release(job: string, submission: string, owner: string)
    | SaveClaimed(job: string, submission: string, owner: string, metaKey: string, desired: Desired, newRole: Role, status: Status)
    | Stop(job: string)
    | Pause(job: string)
    | Resume(job: string, role: Role)
    | FreshSnapshot(job: string)
    | RebuildJob(job: string, submission: string, stateKey: string, archiveId: string, epoch: string)
    | Upgrade(job: string, submission: string, stateKey: string, archiveId: string)
    | Begin(x: nat, token: Token, mutation: Mutation)
    | Commit(x: nat)
    | Abort(x: nat)
    | Unfenced(mutation: Mutation)

  predicate Locked(w: World, job: string) {
    exists x :: x in w.txs && w.txs[x].token.job == job
  }

  /** A row another step may update now. */
  predicate Reachable(w: World, job: string) {
    job in w.jobs && !Locked(w, job)
  }

  predicate Fresh(w: World, id: string) {
    id !in w.issued
  }

  /** The fenced store offers progress saving as one call only. */
  predicate MayFence(token: Token, m: Mutation) {
    && !m.UpsertProgress? && !m.PruneCovered?
    && (KeyOf(m) == token.stateKey || KeyOf(m) == token.job)
    && (m.BeginCommit? ==> m.intent.job == token.job)
  }

  predicate Upgradable(w: World, job: string, submission: string, key: string) {
    && Reachable(w, job)
    && var row := w.jobs[job];
       && Idle(row, submission, key) && row.role == RoleSnapshot
       && submission != "" && row.config.scopedEpoch == Some(submission) && row.config.rebuildable
       && (row.config.writeMode == SCOPED_TRINO_MODE || row.config.writeMode == SCOPED_NATIVE_MODE)
       && key in w.tables.snapshots && !w.tables.snapshots[key].done
       && w.tables.snapshots[key].start.file != "" && w.tables.snapshots[key].start.pos != 0
       && UpgradeAdmission(w.tables, job, key, submission, row.config.writeMode)
  }

  predicate Rebuildable(w: World, job: string, submission: string, key: string) {
    && Reachable(w, job)
    && Idle(w.jobs[job], submission, key)
    && w.jobs[job].role != RoleAll
    && w.jobs[job].config.rebuildable
    && Admissible(w.tables, key, job)
  }

  /** Whether the step succeeds in this state. */
  predicate Enabled(w: World, op: Op) {
    match op
    case Tick(_) => true
    case Submit(job, row) => job !in w.jobs && Fresh(w, row.submission) && row.owner.None? && row.until.None?
    case DeleteJob(job) => Reachable(w, job)
    case Claim(job, role, owner, until, uuid) =>
      role != RoleAll && owner != "" && Reachable(w, job) && Claimable(w.jobs[job], role, w.now) && Fresh(w, uuid)
    case Renew(job, submission, owner, until) => Reachable(w, job) && Renewable(w.jobs[job], submission, owner)
    case Release(job, submission, owner) => Reachable(w, job) && Holds(w.jobs[job], submission, owner)
    case SaveClaimed(job, submission, owner, metaKey, desired, newRole, status) =>
      && submission != "" && owner != ""
      && Reachable(w, job) && Holds(w.jobs[job], submission, owner) && Unexpired(w.jobs[job], w.now)
    case Stop(job) => Reachable(w, job)
    case Pause(job) => Reachable(w, job) && w.jobs[job].desired == DesiredRunning && w.jobs[job].status == Running
    case Resume(job, role) => role != RoleAll && Reachable(w, job) && TerminalStatus(w.jobs[job].status)
    case FreshSnapshot(job) => Reachable(w, job) && TerminalStatus(w.jobs[job].status)
    case RebuildJob(job, submission, key, archiveId, epoch) =>
      Rebuildable(w, job, submission, key) && Fresh(w, archiveId) && Fresh(w, epoch) && archiveId != epoch
    case Upgrade(job, submission, key, archiveId) => Upgradable(w, job, submission, key) && Fresh(w, archiveId)
    case Begin(x, token, m) =>
      && x !in w.txs && MayFence(token, m)
      && token.submission != "" && token.owner != "" && token.stateKey != ""
      && Reachable(w, token.job) && Owns(w.jobs, token, w.now)
    case Commit(x) => x in w.txs && Mutate(w.tables, w.txs[x].mutation).Ok? && Owns(w.jobs, w.txs[x].token, w.now)
    case Abort(x) => x in w.txs
    case Unfenced(m) => !m.SaveProgress? && Mutate(w.tables, m).Ok?
  }

  function SetRow(w: World, job: string, row: JobRow): (r: World) {
    w.(jobs := w.jobs[job := row])
  }

  function Rebuilt(w: World, job: string, key: string, archiveId: string, epoch: string): (r: World)
    requires job in w.jobs && Admissible(w.tables, key, job)
  {
    ResetAdmission(w.tables, key, job);
    var row := w.jobs[job];
    var archive := ArchiveRow(job, row.submission, key, "purged_binlog_snapshot_rebuild", row.config, ArchiveAll(w.tables, Keys(key, job)));
    SetRow(w, job, Requeued(row, RoleSnapshot, false).(submission := epoch, config := RebuildConfig(row.config, epoch)))
      .(tables := Reset(w.tables, key, job).value, archives := w.archives[archiveId := archive], issued := w.issued + {archiveId, epoch})
  }

  function Upgraded(w: World, job: string, key: string, archiveId: string): (r: World)
    requires job in w.jobs
  {
    var row := w.jobs[job];
    if row.config.writeMode == SCOPED_NATIVE_MODE then w
    else
      var state := Archive(w.tables, key).(intents := map id | id in w.tables.intents && Listed(w.tables, id, key, job) :: w.tables.intents[id]);
      SetRow(w, job, row.(config := row.config.(writeMode := SCOPED_NATIVE_MODE, rolling := false)))
        .(archives := w.archives[archiveId := ArchiveRow(job, row.submission, key, "native_snapshot_writer_upgrade", row.config, [state])],
          issued := w.issued + {archiveId})
  }

  function Effect(w: World, op: Op): (r: World)
    requires Enabled(w, op)
  {
    match op
    case Tick(d) => w.(now := w.now + d)
    case Submit(job, row) => SetRow(w, job, row).(issued := w.issued + {row.submission})
    case DeleteJob(job) => w.(jobs := w.jobs - {job})
    case Claim(job, role, owner, until, uuid) => SetRow(w, job, Claimed(w.jobs[job], owner, until, uuid)).(issued := w.issued + {uuid})
    case Renew(job, submission, owner, until) => SetRow(w, job, w.jobs[job].(until := Some(until)))
    case Release(job, submission, owner) => SetRow(w, job, Unleased(w.jobs[job]))
    case SaveClaimed(job, submission, owner, metaKey, desired, newRole, status) =>
      SetRow(w, job, Saved(w.jobs[job], metaKey, desired, newRole, status))
    case Stop(job) => SetRow(w, job, Unleased(w.jobs[job]).(desired := DesiredStopped, status := Stopped))
    case Pause(job) => SetRow(w, job, w.jobs[job].(status := Pausing))
    case Resume(job, role) => SetRow(w, job, Requeued(w.jobs[job], role, true))
    case FreshSnapshot(job) => SetRow(w, job, Requeued(w.jobs[job], RoleSnapshot, false))
    case RebuildJob(job, submission, key, archiveId, epoch) => Rebuilt(w, job, key, archiveId, epoch)
    case Upgrade(job, submission, key, archiveId) => Upgraded(w, job, key, archiveId)
    case Begin(x, token, m) => w.(txs := w.txs[x := Tx(token, m, w.now)])
    case Commit(x) => w.(tables := After(w.tables, w.txs[x].mutation), txs := w.txs - {x})
    case Abort(x) => w.(txs := w.txs - {x})
    case Unfenced(m) => w.(tables := After(w.tables, m))
  }

  function Apply(w: World, op: Op): (r: World) {
    if Enabled(w, op) then Effect(w, op) else w
  }

  /** The state after the first `n` steps of a run. */
  function At(w: World, ops: seq<Op>, n: nat): (r: World)
    requires n <= |ops|
  {
    if n == 0 then w else Apply(At(w, ops, n - 1), ops[n - 1])
  }

  ghost predicate Valid(w: World) {
    && "" in w.issued
    && (forall job :: job in w.jobs ==> LeaseWellFormed(w.jobs[job]) && w.jobs[job].submission in w.issued)
    && (forall x :: x in w.txs ==> w.txs[x].began <= w.now && Owns(w.jobs, w.txs[x].token, w.txs[x].began) && MayFence(w.txs[x].token, w.txs[x].mutation))
    && (forall x, y :: x in w.txs && y in w.txs && w.txs[x].token.job == w.txs[y].token.job ==> x == y)
  }

  ghost predicate Initial(w: World) {
    Valid(w) && w.txs == map[]
  }

  /** A row update on an unlocked row keeps every open transaction's evidence. */
  lemma RowUpdateKeepsValid(w: World, r: World, job: string)
    requires Valid(w) && !Locked(w, job)
    requires r.txs == w.txs && r.now == w.now && w.issued <= r.issued
    requires forall j :: j != job ==> (j in r.jobs <==> j in w.jobs) && (j in w.jobs ==> r.jobs[j] == w.jobs[j])
    requires job in r.jobs ==> LeaseWellFormed(r.jobs[job]) && r.jobs[job].submission in r.issued
    ensures Valid(r)
  {
  }

  /** Steps that open, close or bypass a fenced write, or only let time pass. */
  predicate Rowless(op: Op) {
    op.Tick? || op.Begin? || op.Commit? || op.Abort? || op.Unfenced?
  }

  lemma RowlessKeepsValid(w: World, op: Op)
    requires Valid(w) && Rowless(op) && Enabled(w, op)
    ensures Valid(Effect(w, op))
  {
    if op.Begin? {
      assert forall y :: y in w.txs ==> w.txs[y].token.job != op.token.job;
    }
  }

  /** Every other step leaves clock, transactions and all rows but its own as they were. */
  lemma RowStepFrame(w: World, op: Op)
    requires !Rowless(op) && Enabled(w, op)
    ensures var r := Effect(w, op);
      && r.txs == w.txs && r.now == w.now && w.issued <= r.issued
      && (forall j :: j != op.job ==> (j in r.jobs <==> j in w.jobs) && (j in w.jobs ==> r.jobs[j] == w.jobs[j]))
      && (op.Submit? || !Locked(w, op.job))
  {
  }

  lemma RowStepRow(w: World, op: Op)
    requires !Rowless(op) && Enabled(w, op) && op.job in Effect(w, op).jobs
    requires op.job in w.jobs ==> LeaseWellFormed(w.jobs[op.job]) && w.jobs[op.job].submission in w.issued
    ensures var r := Effect(w, op); LeaseWellFormed(r.jobs[op.job]) && r.jobs[op.job].submission in r.issued
  {
  }

  lemma StepKeepsValid(w: World, op: Op)
    requires Valid(w)
    ensures Valid(Apply(w, op))
  {
    if Enabled(w, op) {
      if Rowless(op) {
        RowlessKeepsValid(w, op);
      } else {
        RowStepFrame(w, op);
        if op.job in Effect(w, op).jobs {
          RowStepRow(w, op);
        }
        assert !Locked(w, op.job);
        RowUpdateKeepsValid(w, Effect(w, op), op.job);
      }
    }
  }

  lemma {:induction false} RunKeepsValid(w: World, ops: seq<Op>, n: nat)
    requires Valid(w) && n <= |ops|
    ensures Valid(At(w, ops, n))
  {
    hide Apply;
    if n > 0 {
      RunKeepsValid(w, ops, n - 1);
      StepKeepsValid(At(w, ops, n - 1), ops[n - 1]);
    }
  }
}
