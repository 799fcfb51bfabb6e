/** Which steps write which column of a job row, and what a rebuild's new epoch can be used for. */
module RegistryHistory {
  import opened Common
  import opened JobRegistry
  import opened Checkpoints
  import opened Rebuild
  import opened ScopedRebuild
  import opened WorkerProtocol

  /** The step goes through and is about this job's row. */
  predicate Does(w: World, op: Op, job: string) {
    Enabled(w, op) && !Rowless(op) && op.job == job
  }

  // ---- When a step on a row goes through ----

  predicate Alone(w: World, job: string) {
    job in w.jobs && forall x :: x in w.txs ==> w.txs[x].token.job != job
  }

  predicate LeasedBy(row: JobRow, submission: string, owner: string) {
    row.submission == submission && row.owner == Some(owner)
  }

  predicate Ended(row: JobRow) {
    row.status in {Paused, Failed, Stopped}
  }

  /** A worker's steps: to claim, the job is to run, in its role, and its lease is not held past
      this instant; everything else needs the row's own submission and lease. */
  lemma WorkerStepsWhen(w: World, op: Op)
    ensures op.Claim? ==> (Enabled(w, op) <==>
      && Alone(w, op.job) && op.role == w.jobs[op.job].role && op.role != RoleAll && op.owner != "" && op.uuid !in w.issued
      && w.jobs[op.job].desired == DesiredRunning && (w.jobs[op.job].until.Some? ==> w.jobs[op.job].until.value < w.now))
    ensures op.Renew? ==> (Enabled(w, op) <==>
      && Alone(w, op.job) && LeasedBy(w.jobs[op.job], op.submission, op.owner)
      && (w.jobs[op.job].desired == DesiredRunning || w.jobs[op.job].status in {Pausing, Stopping}))
    ensures op.Release? ==> (Enabled(w, op) <==> Alone(w, op.job) && LeasedBy(w.jobs[op.job], op.submission, op.owner))
    ensures op.SaveClaimed? ==> (Enabled(w, op) <==>
      && Alone(w, op.job) && LeasedBy(w.jobs[op.job], op.submission, op.owner) && op.submission != "" && op.owner != ""
      && w.jobs[op.job].until.Some? && w.now <= w.jobs[op.job].until.value)
  {
  }

  /** The token names the job's own unexpired lease, and the job is to run or its pause is being
      answered. */
  predicate InCharge(w: World, token: Token) {
    && token.job in w.jobs && LeasedBy(w.jobs[token.job], token.submission, token.owner)
    && w.jobs[token.job].until.Some? && w.now <= w.jobs[token.job].until.value
    && (w.jobs[token.job].desired == DesiredRunning || w.jobs[token.job].status == Pausing)
  }

  /** A fenced write opens exactly for a token in charge of an unlocked row, with a call for one of the
      job's keys; and it commits exactly when the token is still in charge and the call succeeds. */
  lemma FenceWhen(w: World, op: Op)
    ensures op.Begin? ==> (Enabled(w, op) <==> var token, m := op.token, op.mutation;
      && op.x !in w.txs && InCharge(w, token) && Alone(w, token.job)
      && token.submission != "" && token.owner != "" && token.stateKey != ""
      && (if m.BeginCommit? then m.intent.stateKey in {token.stateKey, token.job} && m.intent.job == token.job else m.key in {token.stateKey, token.job})
      && !m.UpsertProgress? && !m.PruneCovered?)
    ensures op.Commit? ==> (Enabled(w, op) <==> op.x in w.txs && InCharge(w, w.txs[op.x].token) && Mutate(w.tables, w.txs[op.x].mutation).Ok?)
    ensures op.Unfenced? ==> (Enabled(w, op) <==> !op.mutation.SaveProgress? && Mutate(w.tables, op.mutation).Ok?)
  {
    hide Mutate;
  }

  /** The last worker has let go of a stopped job of this submission and state key. */
  predicate Surrendered(row: JobRow, submission: string, key: string) {
    row.submission == submission && row.metaKey == key && row.owner.None? && row.desired == DesiredStopped && Ended(row)
  }

  /** Every receipt that names the job or the key, in either column, is the job's own, under one
      of the two, and COMMITTED. */
  predicate Resolves(t: Tables, job: string, key: string) {
    forall id :: id in t.intents ==> var i := t.intents[id];
      i.job in {job, key} || i.stateKey in {job, key} ==> i.job == job && i.stateKey in {job, key} && i.outcome == Committed
  }

  /** Requests from the control plane need no lease. */
  lemma RequestsWhen(w: World, op: Op)
    ensures op.Stop? || op.DeleteJob? ==> (Enabled(w, op) <==> Alone(w, op.job))
    ensures op.Pause? ==> (Enabled(w, op) <==> Alone(w, op.job) && w.jobs[op.job].desired == DesiredRunning && w.jobs[op.job].status == Running)
    ensures op.Resume? ==> (Enabled(w, op) <==> Alone(w, op.job) && Ended(w.jobs[op.job]) && op.role != RoleAll)
    ensures op.FreshSnapshot? ==> (Enabled(w, op) <==> Alone(w, op.job) && Ended(w.jobs[op.job]))
    ensures op.RebuildJob? ==> (Enabled(w, op) <==>
      && Alone(w, op.job) && Surrendered(w.jobs[op.job], op.submission, op.stateKey)
      && w.jobs[op.job].role != RoleAll && w.jobs[op.job].config.rebuildable
      && Resolves(w.tables, op.job, op.stateKey) && op.archiveId !in w.issued && op.epoch !in w.issued && op.archiveId != op.epoch)
    ensures op.Upgrade? ==> (Enabled(w, op) <==>
      && Alone(w, op.job) && Surrendered(w.jobs[op.job], op.submission, op.stateKey) && op.submission != ""
      && var c := w.jobs[op.job].config;
      && w.jobs[op.job].role == RoleSnapshot && c.rebuildable && c.scopedEpoch == Some(op.submission)
      && c.writeMode in {"rebuild-scoped-trino-v1", "rebuild-scoped-native-v2"}
      && op.stateKey in w.tables.snapshots && !w.tables.snapshots[op.stateKey].done
      && w.tables.snapshots[op.stateKey].start.file != "" && w.tables.snapshots[op.stateKey].start.pos > 0
      && UpgradeAdmission(w.tables, op.job, op.stateKey, op.submission, c.writeMode) && op.archiveId !in w.issued)
  {
  }

  // ---- Who writes a column ----

  predicate Requeues(op: Op) {
    op.Resume? || op.FreshSnapshot? || op.RebuildJob?
  }

  /** Rows come and go only by submission and deletion. */
  lemma RowsComeAndGo(w: World, op: Op, job: string)
    ensures var r := Apply(w, op).jobs;
      && (job in r <==> (job in w.jobs && !(Does(w, op, job) && op.DeleteJob?)) || (Does(w, op, job) && op.Submit?))
      && (Does(w, op, job) && op.Submit? ==> job !in w.jobs && r[job] == op.row)
  {
    hide Reset, ArchiveAll, Archive, Mutate, Admissible, UpgradeAdmission, Locked, Owns, MayFence;
  }

  lemma OtherRow(w: World, op: Op, job: string)
    requires !Does(w, op, job)
    ensures Lookup(Apply(w, op).jobs, job) == Lookup(w.jobs, job)
  {
    hide Reset, ArchiveAll, Archive, Mutate, Admissible, UpgradeAdmission, Locked, Owns, MayFence;
  }

  /** The lease and the submission: a claim takes both columns of the lease and names a nameless
      submission, a renewal moves the deadline, and every requeue drops the lease. */
  lemma LeaseColumns(w: World, op: Op, job: string)
    requires job in w.jobs && job in Apply(w, op).jobs
    ensures var row, r, d := w.jobs[job], Apply(w, op).jobs[job], Does(w, op, job);
      && r.owner == (
        if d && op.Claim? then Some(op.owner) else if d && (op.Release? || op.Stop? || Requeues(op)) then None else row.owner)
      && r.until == (
        if d && (op.Claim? || op.Renew?) then Some(op.until)
        else if d && (op.Release? || op.Stop? || Requeues(op)) then None else row.until)
      && r.submission == (
        if d && op.Claim? && row.submission == "" then op.uuid else if d && op.RebuildJob? then op.epoch else row.submission)
  {
    if Does(w, op, job) {
      hide Reset, ArchiveAll, Archive, Mutate, Admissible, UpgradeAdmission, Locked, Owns, MayFence;
      assert Apply(w, op) == Effect(w, op);
    } else {
      hide Apply;
      OtherRow(w, op, job);
    }
  }

  /** Desired state and status. */
  lemma StateColumns(w: World, op: Op, job: string)
    requires job in w.jobs && job in Apply(w, op).jobs
    ensures var row, r, d := w.jobs[job], Apply(w, op).jobs[job], Does(w, op, job);
      && r.desired == (
        if d && op.SaveClaimed? then op.desired else if d && op.Stop? then DesiredStopped
        else if d && Requeues(op) then DesiredRunning else row.desired)
      && r.status == (
        if d && op.SaveClaimed? then
          (if row.status == Pausing && op.status in {Created, Queued, Pending, Running} then Pausing else op.status)
        else if d && op.Stop? then Stopped else if d && op.Pause? then Pausing
        else if d && Requeues(op) then Queued else row.status)
  {
    if Does(w, op, job) {
      hide Reset, ArchiveAll, Archive, Mutate, Admissible, UpgradeAdmission, Locked, Owns, MayFence;
      assert Apply(w, op) == Effect(w, op);
    } else {
      hide Apply;
      OtherRow(w, op, job);
    }
  }

  /** Which worker is to run the job, and whether it continues. */
  lemma RoleColumns(w: World, op: Op, job: string)
    requires job in w.jobs && job in Apply(w, op).jobs
    ensures var row, r, d := w.jobs[job], Apply(w, op).jobs[job], Does(w, op, job);
      && r.role == (
        if d && op.SaveClaimed? then op.newRole else if d && op.Resume? then op.role
        else if d && (op.FreshSnapshot? || op.RebuildJob?) then RoleSnapshot else row.role)
      && (r.resumeRequested <==>
        if d && op.Resume? then true
        else if d && (op.SaveClaimed? || op.FreshSnapshot? || op.RebuildJob?) then false else row.resumeRequested)
      && r.metaKey == (if d && op.SaveClaimed? then op.metaKey else row.metaKey)
  {
    if Does(w, op, job) {
      hide Reset, ArchiveAll, Archive, Mutate, Admissible, UpgradeAdmission, Locked, Owns, MayFence;
      assert Apply(w, op) == Effect(w, op);
    } else {
      hide Apply;
      OtherRow(w, op, job);
    }
  }

  /** The configuration: a rebuild opens a scoped epoch for a Trino job and a full reset for any
      other, and a writer upgrade only changes the mode. */
  lemma ConfigColumns(w: World, op: Op, job: string)
    requires job in w.jobs && job in Apply(w, op).jobs
    ensures var c, r, d := w.jobs[job].config, Apply(w, op).jobs[job].config, Does(w, op, job);
      if d && op.RebuildJob? then
        && r.rebuildable == c.rebuildable && r.usesTrino == c.usesTrino
        && r.scopedEpoch == (if c.usesTrino then Some(op.epoch) else None)
        && r.fullResetEpoch == (if c.usesTrino then None else Some(op.epoch))
        && r.writeMode == (if c.usesTrino then "rebuild-scoped-native-v2" else "rebuild-truncate-append-v1")
        && r.rolling == (c.rolling && !c.usesTrino)
      else if d && op.Upgrade? && c.writeMode == "rebuild-scoped-trino-v1" then r == c.(writeMode := "rebuild-scoped-native-v2", rolling := false)
      else r == c
  {
    if Does(w, op, job) {
      hide Reset, ArchiveAll, Archive, Mutate, Admissible, UpgradeAdmission, Locked, Owns, MayFence;
      assert Apply(w, op) == Effect(w, op);
    } else {
      hide Apply;
      OtherRow(w, op, job);
    }
  }

  /** An archive row names the epoch that ended, with its configuration. */
  predicate NamesEpoch(a: ArchiveRow, row: JobRow, job: string, key: string, reason: string) {
    a.job == job && a.submission == row.submission && a.stateKey == key && a.reason == reason && a.config == row.config
  }

  /** A rebuild writes one archive row, over the state of both keys. */
  lemma RebuildArchivesEpoch(w: World, op: Op)
    requires op.RebuildJob? && Enabled(w, op)
    ensures var a, keys := Apply(w, op).archives, if op.job == op.stateKey then [op.stateKey] else [op.stateKey, op.job];
      && a.Keys == w.archives.Keys + {op.archiveId} && a - {op.archiveId} == w.archives - {op.archiveId}
      && NamesEpoch(a[op.archiveId], w.jobs[op.job], op.job, op.stateKey, "purged_binlog_snapshot_rebuild")
      && a[op.archiveId].states == ArchiveAll(w.tables, keys)
  {
    hide Reset, ArchiveAll, Archive, Mutate, Admissible, Locked;
    ResetAdmission(w.tables, op.stateKey, op.job);
  }

  /** What an upgrade keeps of a key: its rows, and the receipts of the job or the key. */
  ghost predicate Keeps(a: ArchivedState, t: Tables, key: string, job: string) {
    && a.key == key && a.offset == Lookup(t.offsets, key) && a.snapshot == Lookup(t.snapshots, key) && a.progress == Lookup(t.progress, key)
    && forall id :: Lookup(a.intents, id) ==
         if id in t.intents && (t.intents[id].stateKey == key || t.intents[id].job == job) then Some(t.intents[id]) else None
  }

  /** A writer upgrade writes one archive row, unless the job is on the native writer already. */
  lemma UpgradeArchivesEpoch(w: World, op: Op)
    requires op.Upgrade? && Enabled(w, op)
    ensures var a := Apply(w, op).archives;
      if w.jobs[op.job].config.writeMode == "rebuild-scoped-native-v2" then a == w.archives
      else
        && a.Keys == w.archives.Keys + {op.archiveId} && a - {op.archiveId} == w.archives - {op.archiveId}
        && NamesEpoch(a[op.archiveId], w.jobs[op.job], op.job, op.stateKey, "native_snapshot_writer_upgrade")
        && op.archiveId in Apply(w, op).issued && |a[op.archiveId].states| == 1 && Keeps(a[op.archiveId].states[0], w.tables, op.stateKey, op.job)
  {
    hide UpgradeAdmission, Locked;
  }

  lemma NothingElseArchives(w: World, op: Op)
    requires !op.RebuildJob? && !op.Upgrade?
    ensures Apply(w, op).archives == w.archives
  {
  }

  // ---- After a rebuild ----

  /** The job waits, unleased, for a snapshot worker that starts from the beginning. */
  predicate AwaitsSnapshot(w: World, job: string) {
    job in w.jobs && w.jobs[job].role == RoleSnapshot && !w.jobs[job].resumeRequested && w.jobs[job].owner.None?
  }

  /** A step that takes the job out of the queue it was put in. */
  predicate Reroutes(w: World, op: Op, job: string) {
    Does(w, op, job) && (op.Claim? || op.Resume? || op.DeleteJob?)
  }

  lemma AwaitsOn(w: World, op: Op, job: string)
    requires AwaitsSnapshot(w, job) && !Reroutes(w, op, job)
    ensures AwaitsSnapshot(Apply(w, op), job)
  {
    RowsComeAndGo(w, op, job);
    LeaseColumns(w, op, job);
    RoleColumns(w, op, job);
  }

  /** A rebuild's new epoch is run by a snapshot worker from the start, whatever else happens:
      until the job is resumed in some role or deleted, the next claim that succeeds is made in
      the snapshot role and finds no resume requested. */
  lemma {:induction false} FirstClaimIsSnapshot(w: World, ops: seq<Op>, i: nat, k: nat)
    requires Valid(w) && i < k < |ops| && ops[i].RebuildJob? && Enabled(At(w, ops, i), ops[i])
    requires forall m :: i < m < k ==> !Reroutes(At(w, ops, m), ops[m], ops[i].job)
    ensures var job := ops[i].job; AwaitsSnapshot(At(w, ops, k), job)
    ensures ops[k].Claim? && Does(At(w, ops, k), ops[k], ops[i].job) ==> ops[k].role == RoleSnapshot
  {
    hide Apply;
    var job := ops[i].job;
    if i + 1 < k {
      FirstClaimIsSnapshot(w, ops, i, k - 1);
      AwaitsOn(At(w, ops, k - 1), ops[k - 1], job);
    } else {
      RebuiltAwaits(At(w, ops, i), ops[i]);
    }
    WorkerStepsWhen(At(w, ops, k), ops[k]);
  }

  lemma RebuiltAwaits(w: World, op: Op)
    requires op.RebuildJob? && Enabled(w, op)
    ensures AwaitsSnapshot(Apply(w, op), op.job)
  {
    RowsComeAndGo(w, op, op.job);
    LeaseColumns(w, op, op.job);
    RoleColumns(w, op, op.job);
  }
}
