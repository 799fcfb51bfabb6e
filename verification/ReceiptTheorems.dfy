/** Commit receipts and snapshot completion over every run of the worker protocol. */
module ReceiptTheorems {
  import opened Common
  import opened JobRegistry
  import opened Checkpoints
  import opened Rebuild
  import opened WorkerProtocol
  import opened WorkerTheorems
  import opened CheckpointHistory

  // ---- No commit receipt is lost ----

  predicate Unresolved(t: Tables, id: string) {
    id in t.intents && t.intents[id].outcome == Prepared
  }

  /** An unresolved commit is resolved only by its own completion mark or explicit deletion. */
  lemma UnresolvedStep(w: World, op: Op, id: string)
    requires Unresolved(w.tables, id)
    ensures var key := w.tables.intents[id].stateKey;
      || (Unresolved(Apply(w, op).tables, id) && Apply(w, op).tables.intents[id].stateKey == key)
      || Performed(w, op) == Some(MarkCommitted(key, id))
      || Performed(w, op) == Some(DeleteCommit(key, id))
  {
    TableStep(w, op);
    if Performed(w, op).Some? {
      PreparedSurvives(w.tables, Performed(w, op).value, id);
    } else if op.RebuildJob? && Enabled(w, op) {
      RebuildTables(w, op);
    }
  }

  lemma {:induction false} UnresolvedLostOnlyBy(w: World, ops: seq<Op>, i: nat, k: nat, id: string) returns (m: nat)
    requires i <= k <= |ops|
    requires Unresolved(At(w, ops, i).tables, id) && !Unresolved(At(w, ops, k).tables, id)
    ensures i <= m < k && Unresolved(At(w, ops, m).tables, id)
    ensures var key := At(w, ops, m).tables.intents[id].stateKey;
      var done := Performed(At(w, ops, m), ops[m]);
      done == Some(MarkCommitted(key, id)) || done == Some(DeleteCommit(key, id))
  {
    hide Apply;
    if Unresolved(At(w, ops, k - 1).tables, id) {
      UnresolvedStep(At(w, ops, k - 1), ops[k - 1], id);
      m := k - 1;
    } else {
      m := UnresolvedLostOnlyBy(w, ops, i, k - 1, id);
    }
  }

  ghost predicate Archived(w: World, archiveId: string, id: string) {
    archiveId in w.archives && exists n :: 0 <= n < |w.archives[archiveId].states| && id in w.archives[archiveId].states[n].intents
  }

  /** A receipt leaves the table by explicit deletion, into a rebuild's archive, under a fenced
      progress row that covers it, or by the second statement of an unfenced progress save. */
  lemma ReceiptLeavesOnlyBy(w: World, op: Op, id: string)
    requires Valid(w) && id in w.tables.intents && id !in Apply(w, op).tables.intents
    ensures var i, r := w.tables.intents[id], Apply(w, op);
      || Performed(w, op) == Some(DeleteCommit(i.stateKey, id))
      || (op.RebuildJob? && Enabled(w, op) && i.outcome == Committed && Archived(r, op.archiveId, id))
      || (op.Commit? && i.outcome == Committed && Covered(r.tables, i))
      || (op.Unfenced? && op.mutation.PruneCovered? && Prunable(i, op.mutation.key, op.mutation.table, op.mutation.next))
  {
    TableStep(w, op);
    if Performed(w, op).Some? {
      ReceiptDropped(w.tables, Performed(w, op).value, id);
      assert op.Commit? ==> MayFence(w.txs[op.x].token, w.txs[op.x].mutation);
    } else {
      RebuildArchives(w, op, id);
    }
  }

  lemma RebuildArchives(w: World, op: Op, id: string)
    requires op.RebuildJob? && Enabled(w, op)
    requires id in w.tables.intents && id !in Effect(w, op).tables.intents
    ensures w.tables.intents[id].outcome == Committed && Archived(Effect(w, op), op.archiveId, id)
  {
    var r := Effect(w, op);
    ResetAdmission(w.tables, op.stateKey, op.job);
    ResetConserves(w.tables, op.stateKey, op.job);
    var a := ArchiveAll(w.tables, Keys(op.stateKey, op.job));
    assert r.archives[op.archiveId].states == a;
    var n :| 0 <= n < |a| && id in a[n].intents;
  }

  // ---- Rebuild conserves ----

  /** A successful rebuild: what it deleted can be put back from its archive row, every other
      registry row is untouched, and the job starts a fresh, unleased, queued epoch. */
  lemma RebuildConserves(w: World, op: Op)
    requires op.RebuildJob? && Enabled(w, op)
    ensures var r := Effect(w, op);
      && op.archiveId in r.archives && op.archiveId in r.issued
      && RestoreAll(r.tables, r.archives[op.archiveId].states) == w.tables
      && HoldsDeleted(r.archives[op.archiveId].states, w.tables, r.tables)
      && Cleared(w.tables, r.tables, op.stateKey, op.job)
      && r.jobs - {op.job} == w.jobs - {op.job}
      && op.job in r.jobs && r.jobs[op.job].submission == op.epoch && op.epoch !in w.issued
      && r.jobs[op.job].owner.None? && r.jobs[op.job].status == Queued && r.jobs[op.job].desired == DesiredRunning
  {
    hide Reset, RestoreAll, Cleared, HoldsDeleted;
    RebuildTables(w, op);
    ResetConserves(w.tables, op.stateKey, op.job);
  }

  /** Archive rows are permanent, so the restoration stays possible in every continuation. */
  lemma {:induction false} ArchiveIsPermanent(w: World, ops: seq<Op>, i: nat, k: nat, archiveId: string)
    requires i <= k <= |ops|
    requires archiveId in At(w, ops, i).archives && archiveId in At(w, ops, i).issued
    ensures archiveId in At(w, ops, k).issued
    ensures Lookup(At(w, ops, k).archives, archiveId) == Some(At(w, ops, i).archives[archiveId])
  {
    if i < k {
      ArchiveIsPermanent(w, ops, i, k - 1, archiveId);
      var v, op := At(w, ops, k - 1), ops[k - 1];
      if Enabled(v, op) && !Rowless(op) {
        RowStepFrame(v, op);
      }
    }
  }

  // ---- Progress saved by two statements ----

  /** Every receipt the prune statement would drop is covered at that moment. */
  predicate PruneIsSafe(t: Tables, key: string, table: string, next: int) {
    forall id :: id in t.intents && Prunable(t.intents[id], key, table, next) ==> Covered(t, t.intents[id])
  }

  /** The prune is safe whatever receipts are stored exactly when the progress row still names
      the table and has not moved back below the pruned offset. */
  lemma PruneSafeExactlyWhen(row: Option<Progress>, key: string, table: string, next: int)
    ensures (forall t: Tables :: Lookup(t.progress, key) == row ==> PruneIsSafe(t, key, table, next))
      <==> (row.Some? && row.value.table == table && next <= row.value.next)
  {
    if !(row.Some? && row.value.table == table && next <= row.value.next) {
      var i := Intent("", key, "", SnapshotKind, table, table, 0, next, "", "", "", Committed);
      var t := Tables(map[], map[], if row.Some? then map[key := row.value] else map[], map["op" := i]);
      assert Lookup(t.progress, key) == row;
      assert Prunable(t.intents["op"], key, table, next) && !Covered(t, t.intents["op"]);
      assert !PruneIsSafe(t, key, table, next);
    }
  }

  lemma {:induction false} ProgressUntouched(w: World, ops: seq<Op>, i: nat, k: nat, key: string)
    requires i <= k <= |ops|
    requires forall m :: i <= m < k ==> Lookup(At(w, ops, m + 1).tables.progress, key) == Lookup(At(w, ops, m).tables.progress, key)
    ensures Lookup(At(w, ops, k).tables.progress, key) == Lookup(At(w, ops, i).tables.progress, key)
  {
    hide Apply;
    if i < k {
      ProgressUntouched(w, ops, i, k - 1, key);
    }
  }

  /** Two-statement progress saving: whatever happens between the statements, short of another
      writer of the same key's progress, the prune drops only covered receipts; and a process
      that stops after the first statement has dropped none. */
  lemma {:induction false} TwoStatementProgress(w: World, ops: seq<Op>, i: nat, k: nat, key: string, table: string, next: int, cursor: string)
    requires i < k <= |ops| && ops[i] == Unfenced(UpsertProgress(key, table, next, cursor))
    requires forall m :: i < m < k ==> Lookup(At(w, ops, m + 1).tables.progress, key) == Lookup(At(w, ops, m).tables.progress, key)
    ensures At(w, ops, i + 1).tables.intents == At(w, ops, i).tables.intents
    ensures PruneIsSafe(At(w, ops, k).tables, key, table, next)
  {
    assert Lookup(At(w, ops, i + 1).tables.progress, key) == Some(Progress(table, next, cursor));
    ProgressUntouched(w, ops, i + 1, k, key);
    PruneSafeExactlyWhen(Some(Progress(table, next, cursor)), key, table, next);
  }

  predicate SavesProgress(op: Op, key: string, table: string, next: int) {
    op.Unfenced? && op.mutation.UpsertProgress? && op.mutation.key == key && op.mutation.table == table && op.mutation.next == next
  }

  /** An unfenced prune is the second statement of a progress save. */
  ghost predicate Paired(ops: seq<Op>, m: nat)
    requires m < |ops|
  {
    ops[m].Unfenced? && ops[m].mutation.PruneCovered? ==>
      exists p :: 0 <= p < m && SavesProgress(ops[p], ops[m].mutation.key, ops[m].mutation.table, ops[m].mutation.next)
  }

  ghost predicate Untouched(w: World, ops: seq<Op>, p: nat, m: nat, key: string)
    requires m <= |ops|
  {
    forall q :: p < q < m ==> Lookup(At(w, ops, q + 1).tables.progress, key) == Lookup(At(w, ops, q).tables.progress, key)
  }

  /** Another writer changed the progress row between the two statements of the save. */
  ghost predicate Interfered(w: World, ops: seq<Op>, m: nat)
    requires m < |ops|
  {
    && ops[m].Unfenced? && ops[m].mutation.PruneCovered?
    && var s := ops[m].mutation;
       && (exists p :: 0 <= p < m && SavesProgress(ops[p], s.key, s.table, s.next))
       && forall p :: 0 <= p < m && SavesProgress(ops[p], s.key, s.table, s.next) ==> !Untouched(w, ops, p, m, s.key)
  }

  lemma PruneKeepsProgress(w: World, key: string, table: string, next: int)
    ensures Apply(w, Unfenced(PruneCovered(key, table, next))).tables.progress == w.tables.progress
  {
  }

  lemma {:induction false} UnfencedPrune(w: World, ops: seq<Op>, m: nat, id: string)
    requires m < |ops| && ops[m].Unfenced? && ops[m].mutation.PruneCovered? && Paired(ops, m) && id in At(w, ops, m).tables.intents
    requires var s := ops[m].mutation; Prunable(At(w, ops, m).tables.intents[id], s.key, s.table, s.next)
    ensures Covered(At(w, ops, m).tables, At(w, ops, m).tables.intents[id]) || Interfered(w, ops, m)
  {
    hide Apply;
    var s := ops[m].mutation;
    if !Interfered(w, ops, m) {
      var p :| 0 <= p < m && SavesProgress(ops[p], s.key, s.table, s.next) && Untouched(w, ops, p, m, s.key);
      TwoStatementProgress(w, ops, p, m, s.key, s.table, s.next, ops[p].mutation.cursor);
    }
  }

  /** Over a whole run, a receipt that is gone left by explicit deletion or into a rebuild's
      archive, or the durable progress row covered it then, unless another writer had changed
      that row between the two statements of an unfenced save. */
  lemma {:induction false} ReceiptLostInRun(w: World, ops: seq<Op>, i: nat, k: nat, id: string) returns (m: nat)
    requires Valid(w) && i <= k <= |ops| && forall q :: 0 <= q < k ==> Paired(ops, q)
    requires id in At(w, ops, i).tables.intents && id !in At(w, ops, k).tables.intents
    ensures i <= m < k && id in At(w, ops, m).tables.intents && id !in At(w, ops, m + 1).tables.intents
    ensures var intent, v, r := At(w, ops, m).tables.intents[id], At(w, ops, m), At(w, ops, m + 1);
      || Performed(v, ops[m]) == Some(DeleteCommit(intent.stateKey, id))
      || (ops[m].RebuildJob? && intent.outcome == Committed && Archived(r, ops[m].archiveId, id))
      || Covered(r.tables, intent) || Interfered(w, ops, m)
  {
    hide Apply;
    m := LastSeen(w, ops, i, k, id);
    RunKeepsValid(w, ops, m);
    ReceiptLeavesOnlyBy(At(w, ops, m), ops[m], id);
    assert At(w, ops, m + 1) == Apply(At(w, ops, m), ops[m]);
    if ops[m].Unfenced? && ops[m].mutation.PruneCovered? {
      if Prunable(At(w, ops, m).tables.intents[id], ops[m].mutation.key, ops[m].mutation.table, ops[m].mutation.next) {
        UnfencedPrune(w, ops, m, id);
        PruneKeepsProgress(At(w, ops, m), ops[m].mutation.key, ops[m].mutation.table, ops[m].mutation.next);
      }
    }
  }

  lemma {:induction false} LastSeen(w: World, ops: seq<Op>, i: nat, k: nat, id: string) returns (m: nat)
    requires i <= k <= |ops| && id in At(w, ops, i).tables.intents && id !in At(w, ops, k).tables.intents
    ensures i <= m < k && id in At(w, ops, m).tables.intents && id !in At(w, ops, m + 1).tables.intents
  {
    hide Apply;
    var flags := seq(k - i + 1, j requires 0 <= j <= k - i => id in At(w, ops, i + j).tables.intents);
    var j := LastSet(flags);
    m := i + j;
    assert flags[j] == (id in At(w, ops, m).tables.intents) && flags[j + 1] == (id in At(w, ops, m + 1).tables.intents);
  }

  /** The exception is real: whatever COMMITTED snapshot receipt is stored, if another writer
      clears the progress row between the two statements, the prune drops it uncovered. */
  lemma {:induction false} ClearedProgressLosesReceipt(w: World, id: string, next: int, cursor: string) returns (ops: seq<Op>)
    requires id in w.tables.intents && w.tables.intents[id].kind == SnapshotKind && w.tables.intents[id].outcome == Committed
    requires w.tables.intents[id].end <= next
    ensures var i := w.tables.intents[id];
      && ops == [Unfenced(UpsertProgress(i.stateKey, i.snapshotTable, next, cursor)), Unfenced(ClearProgress(i.stateKey)),
                 Unfenced(PruneCovered(i.stateKey, i.snapshotTable, next))]
      && Interfered(w, ops, 2) && id in At(w, ops, 2).tables.intents
      && id !in At(w, ops, 3).tables.intents && !Covered(At(w, ops, 3).tables, i)
  {
    var i := w.tables.intents[id];
    ops := [Unfenced(UpsertProgress(i.stateKey, i.snapshotTable, next, cursor)), Unfenced(ClearProgress(i.stateKey)),
            Unfenced(PruneCovered(i.stateKey, i.snapshotTable, next))];
    var raised := Upserted(w.tables, i.stateKey, i.snapshotTable, next, cursor);
    var cleared := raised.(progress := raised.progress - {i.stateKey});
    assert At(w, ops, 0) == w && At(w, ops, 1) == w.(tables := raised);
    assert At(w, ops, 2) == w.(tables := cleared);
    assert At(w, ops, 3) == w.(tables := Pruned(cleared, i.stateKey, i.snapshotTable, next));
    assert SavesProgress(ops[0], i.stateKey, i.snapshotTable, next);
    assert Lookup(At(w, ops, 2).tables.progress, i.stateKey) != Lookup(At(w, ops, 1).tables.progress, i.stateKey);
    assert !Untouched(w, ops, 0, 2, i.stateKey);
  }

  // ---- Snapshot completion ----

  predicate OpenStart(t: Tables, key: string) {
    key in t.snapshots && !t.snapshots[key].done
  }

  /** Step `s` saved the start that step `m` marks complete, with every receipt settled. */
  ghost predicate StartedAt(w: World, ops: seq<Op>, s: nat, m: nat, key: string)
    requires s < m <= |ops|
  {
    var p := Performed(At(w, ops, s), ops[s]);
    && p.Some? && p.value.SaveStart? && p.value.key == key
    && forall k :: s < k <= m ==> Lookup(At(w, ops, k).tables.snapshots, key) == Some(Snapshot(p.value.start, false, 0))
  }

  lemma {:induction false} OpenStartWasSaved(w: World, ops: seq<Op>, m: nat, key: string) returns (s: nat)
    requires m <= |ops| && !OpenStart(w.tables, key) && OpenStart(At(w, ops, m).tables, key)
    ensures s < m && StartedAt(w, ops, s, m, key)
  {
    hide Apply;
    RowsAfterStep(At(w, ops, m - 1), ops[m - 1], key);
    if Lookup(At(w, ops, m - 1).tables.snapshots, key) == Lookup(At(w, ops, m).tables.snapshots, key) {
      s := OpenStartWasSaved(w, ops, m - 1, key);
    } else {
      s := m - 1;
    }
  }

  lemma MarkIsSettled(w: World, op: Op, key: string)
    requires Performed(w, op) == Some(MarkDone(key)) && !Confirmed(w.tables, key)
    ensures OpenStart(w.tables, key) && Settled(w.tables, key)
  {
    CallSucceedsWhen(w.tables, MarkDone(key));
  }

  /** From a state with no open start, a snapshot is confirmed only through a saved start and
      then a completion mark, made when every intent under the key was COMMITTED. A legacy
      `done` row counts as no start. */
  lemma {:induction false} ConfirmedOnlyThroughStart(w: World, ops: seq<Op>, n: nat, key: string) returns (s: nat, m: nat)
    requires n <= |ops| && !OpenStart(w.tables, key) && !Confirmed(w.tables, key)
    requires Confirmed(At(w, ops, n).tables, key)
    ensures s < m < n && StartedAt(w, ops, s, m, key)
    ensures Performed(At(w, ops, m), ops[m]) == Some(MarkDone(key)) && Settled(At(w, ops, m).tables, key)
  {
    hide Apply;
    if Confirmed(At(w, ops, n - 1).tables, key) {
      s, m := ConfirmedOnlyThroughStart(w, ops, n - 1, key);
    } else {
      m := n - 1;
      RowsAfterStep(At(w, ops, m), ops[m], key);
      MarkIsSettled(At(w, ops, m), ops[m], key);
      s := OpenStartWasSaved(w, ops, m, key);
    }
  }
}
