/** What every row of the checkpoint tables says after any step, and which store call of a run
    it comes from. */
module CheckpointHistory {
  import opened Common
  import opened JobRegistry
  import opened Checkpoints
  import opened Rebuild
  import opened WorkerProtocol
  import opened WorkerTheorems

  // ---- When a call succeeds ----

  /** Every receipt under the key is COMMITTED, and the start is open; or it is confirmed already. */
  ghost predicate MayMark(t: Tables, key: string) {
    && key in t.snapshots
    && (if t.snapshots[key].done then t.snapshots[key].version == 1
        else forall id :: id in t.intents && t.intents[id].stateKey == key ==> t.intents[id].outcome == Committed)
  }

  lemma CallSucceedsWhen(t: Tables, m: Mutation)
    ensures m.BeginCommit? ==> (Mutate(t, m).Ok? <==> m.id !in t.intents)
    ensures m.MarkCommitted? ==>
      (Mutate(t, m).Ok? <==> m.id in t.intents && t.intents[m.id].stateKey == m.key && t.intents[m.id].outcome == Prepared)
    ensures m.RecordQuery? ==>
      (Mutate(t, m).Ok? <==>
        && m.query != "" && m.id in t.intents && t.intents[m.id].stateKey == m.key && t.intents[m.id].kind == RebuildKind
        && t.intents[m.id].outcome == Prepared && t.intents[m.id].trinoQuery in {"", m.query})
    ensures m.MarkDone? ==> (Mutate(t, m).Ok? <==> MayMark(t, m.key))
    ensures m.DeleteState? ==>
      (Mutate(t, m).Ok? <==> forall id :: id in t.intents ==> t.intents[id].stateKey != m.key && t.intents[id].job != m.key)
    ensures m.SaveOffset? || m.SaveStart? || m.UpsertProgress? || m.PruneCovered? || m.SaveProgress? || m.ClearProgress? || m.DeleteCommit?
      ==> Mutate(t, m).Ok?
  {
  }

  // ---- Rows after a step ----

  /** The step removes everything under the key. */
  predicate Wipes(w: World, op: Op, key: string) {
    || Performed(w, op) == Some(DeleteState(key))
    || (op.RebuildJob? && Enabled(w, op) && (key == op.stateKey || key == op.job))
  }

  predicate SavesOffset(m: Option<Mutation>, key: string) {
    m.Some? && m.value.SaveOffset? && m.value.key == key
  }

  predicate SavesStart(m: Option<Mutation>, key: string) {
    m.Some? && m.value.SaveStart? && m.value.key == key
  }

  predicate SavesRow(m: Option<Mutation>, key: string) {
    m.Some? && (m.value.UpsertProgress? || m.value.SaveProgress?) && m.value.key == key
  }

  /** The tables after a call, row by row. */
  lemma RowsAfterCall(t: Tables, m: Mutation, key: string)
    requires Mutate(t, m).Ok?
    ensures var u := Mutate(t, m).value;
      && Lookup(u.offsets, key) == (
        if SavesOffset(Some(m), key) then Some(m.offset) else if m == DeleteState(key) then None else Lookup(t.offsets, key))
      && Lookup(u.snapshots, key) == (
        if SavesStart(Some(m), key) then Some(Snapshot(m.start, false, 0))
        else if m == MarkDone(key) then Some(Snapshot(t.snapshots[key].start, true, 1))
        else if m == DeleteState(key) then None else Lookup(t.snapshots, key))
      && Lookup(u.progress, key) == (
        if SavesRow(Some(m), key) then Some(Progress(m.table, m.next, m.cursor))
        else if m == ClearProgress(key) || m == DeleteState(key) then None else Lookup(t.progress, key))
  {
  }

  /** The rows of a key after any step: what was just saved, or nothing after a deletion or a
      rebuild, or what was there. */
  lemma RowsAfterStep(w: World, op: Op, key: string)
    ensures var m, t, u := Performed(w, op), w.tables, Apply(w, op).tables;
      && Lookup(u.offsets, key) == (
        if SavesOffset(m, key) then Some(m.value.offset) else if Wipes(w, op, key) then None else Lookup(t.offsets, key))
      && (m == Some(MarkDone(key)) ==> key in t.snapshots)
      && Lookup(u.snapshots, key) == (
        if SavesStart(m, key) then Some(Snapshot(m.value.start, false, 0))
        else if m == Some(MarkDone(key)) then Some(Snapshot(t.snapshots[key].start, true, 1))
        else if Wipes(w, op, key) then None else Lookup(t.snapshots, key))
      && Lookup(u.progress, key) == (
        if SavesRow(m, key) then Some(Progress(m.value.table, m.value.next, m.value.cursor))
        else if m == Some(ClearProgress(key)) || Wipes(w, op, key) then None else Lookup(t.progress, key))
  {
    assert Enabled(w, op) ==> Apply(w, op) == Effect(w, op);
    hide Apply, Effect, Mutate;
    TableStep(w, op);
    if Performed(w, op).Some? {
      RowsAfterCall(w.tables, Performed(w, op).value, key);
      CallSucceedsWhen(w.tables, Performed(w, op).value);
    } else if op.RebuildJob? && Enabled(w, op) {
      RebuildTables(w, op);
      assert key != op.stateKey && key != op.job ==> SameAt(w.tables, Effect(w, op).tables, key);
    }
  }

  /** A receipt as its intent is recorded: every field as given, PREPARED, and no query yet. */
  function Recorded(i: Intent): (r: Intent) {
    Intent(i.job, i.stateKey, i.batch, i.kind, i.sourceTable, i.snapshotTable, i.start, i.end, i.operation, i.targetUuid, "", Prepared)
  }

  predicate Begins(m: Option<Mutation>, id: string) {
    m.Some? && m.value.BeginCommit? && m.value.id == id
  }

  predicate Queries(m: Option<Mutation>, id: string) {
    m.Some? && m.value.RecordQuery? && m.value.id == id
  }

  predicate Marks(m: Option<Mutation>, id: string) {
    m.Some? && m.value.MarkCommitted? && m.value.id == id
  }

  /** The call deletes this receipt, or saves progress that has passed it. */
  predicate Drops(m: Option<Mutation>, id: string, i: Intent) {
    && m.Some?
    && (|| m.value == DeleteCommit(i.stateKey, id)
        || (&& (m.value.PruneCovered? || m.value.SaveProgress?)
            && i.stateKey == m.value.key && i.snapshotTable == m.value.table && i.end <= m.value.next
            && i.kind == SnapshotKind && i.outcome == Committed))
  }

  lemma ReceiptAfterCall(t: Tables, m: Mutation, id: string)
    requires Mutate(t, m).Ok?
    ensures Begins(Some(m), id) ==> id !in t.intents
    ensures Marks(Some(m), id) || Queries(Some(m), id) ==> id in t.intents && t.intents[id].stateKey == m.key && t.intents[id].outcome == Prepared
    ensures Lookup(Mutate(t, m).value.intents, id) == (
      if Begins(Some(m), id) then Some(Recorded(m.intent))
      else if id !in t.intents || Drops(Some(m), id, t.intents[id]) then None
      else if Marks(Some(m), id) then Some(t.intents[id].(outcome := Committed))
      else if Queries(Some(m), id) then Some(t.intents[id].(trinoQuery := m.query))
      else Some(t.intents[id]))
  {
  }

  /** A receipt after any step: recorded PREPARED, marked, given its query, dropped, or as it was. */
  lemma ReceiptAfterStep(w: World, op: Op, id: string)
    ensures var m, t := Performed(w, op), w.tables;
      && (Begins(m, id) ==> id !in t.intents)
      && (Marks(m, id) || Queries(m, id) ==> id in t.intents && t.intents[id].stateKey == m.value.key && t.intents[id].outcome == Prepared)
      && Lookup(Apply(w, op).tables.intents, id) == (
        if Begins(m, id) then Some(Recorded(m.value.intent))
        else if id !in t.intents || Drops(m, id, t.intents[id]) then None
        else if op.RebuildJob? && Enabled(w, op) && Touches(t.intents[id], op.stateKey, op.job) then None
        else if Marks(m, id) then Some(t.intents[id].(outcome := Committed))
        else if Queries(m, id) then Some(t.intents[id].(trinoQuery := m.value.query))
        else Some(t.intents[id]))
  {
    assert Enabled(w, op) ==> Apply(w, op) == Effect(w, op);
    hide Apply, Effect, Mutate;
    TableStep(w, op);
    if Performed(w, op).Some? {
      ReceiptAfterCall(w.tables, Performed(w, op).value, id);
    } else if op.RebuildJob? && Enabled(w, op) {
      RebuildTables(w, op);
    }
  }

  // ---- Where a row comes from ----

  /** A receipt keeps what its intent recorded, apart from its outcome and query. */
  predicate Stems(i: Intent, given: Intent) {
    i == Recorded(given).(outcome := i.outcome, trinoQuery := i.trinoQuery)
  }

  /** Step `b` begins the receipt that is there from then on, up to `k`. */
  ghost predicate BegunAt(w: World, ops: seq<Op>, b: nat, k: nat, id: string)
    requires b < k <= |ops|
  {
    var m := Performed(At(w, ops, b), ops[b]);
    && Begins(m, id)
    && forall j :: b < j <= k ==> id in At(w, ops, j).tables.intents && Stems(At(w, ops, j).tables.intents[id], m.value.intent)
  }

  /** A receipt that appears in a run was begun in it, and says what its intent recorded. */
  lemma {:induction false} ReceiptWasBegun(w: World, ops: seq<Op>, i: nat, k: nat, id: string) returns (b: nat)
    requires i <= k <= |ops| && id !in At(w, ops, i).tables.intents && id in At(w, ops, k).tables.intents
    ensures i <= b < k && BegunAt(w, ops, b, k, id)
  {
    hide Apply;
    ReceiptAfterStep(At(w, ops, k - 1), ops[k - 1], id);
    if id in At(w, ops, k - 1).tables.intents {
      b := ReceiptWasBegun(w, ops, i, k - 1, id);
    } else {
      b := k - 1;
    }
  }

  /** Step `m` marks the receipt, which was PREPARED since step `b`. */
  ghost predicate MarkedAt(w: World, ops: seq<Op>, b: nat, m: nat, id: string)
    requires b < m < |ops|
  {
    && (forall j :: b < j <= m ==> id in At(w, ops, j).tables.intents && At(w, ops, j).tables.intents[id].outcome == Prepared)
    && Performed(At(w, ops, m), ops[m]) == Some(MarkCommitted(At(w, ops, m).tables.intents[id].stateKey, id))
  }

  /** A receipt that a run leaves COMMITTED was begun PREPARED and then marked, in that order. */
  lemma {:induction false} CommittedWasMarked(w: World, ops: seq<Op>, i: nat, k: nat, id: string) returns (b: nat, m: nat)
    requires i <= k <= |ops| && id !in At(w, ops, i).tables.intents
    requires id in At(w, ops, k).tables.intents && At(w, ops, k).tables.intents[id].outcome == Committed
    ensures i <= b < m < k && BegunAt(w, ops, b, k, id) && MarkedAt(w, ops, b, m, id)
  {
    hide Apply;
    b := ReceiptWasBegun(w, ops, i, k, id);
    m := FirstMark(w, ops, b, k, id);
  }

  lemma {:induction false} FirstMark(w: World, ops: seq<Op>, b: nat, k: nat, id: string) returns (m: nat)
    requires b < k <= |ops| && BegunAt(w, ops, b, k, id) && At(w, ops, k).tables.intents[id].outcome == Committed
    ensures b < m < k && MarkedAt(w, ops, b, m, id)
  {
    hide Apply, Stems;
    var v, op := At(w, ops, k - 1), ops[k - 1];
    ReceiptAfterStep(v, op, id);
    if k - 1 == b {
      assert false;
    } else if v.tables.intents[id].outcome == Committed {
      m := FirstMark(w, ops, b, k - 1, id);
    } else {
      m := k - 1;
      StillPrepared(w, ops, b, m, id);
    }
  }

  /** No step takes a mark back. */
  lemma {:induction false} StillPrepared(w: World, ops: seq<Op>, b: nat, k: nat, id: string)
    requires b < k <= |ops| && BegunAt(w, ops, b, k, id) && At(w, ops, k).tables.intents[id].outcome == Prepared
    ensures forall j :: b < j <= k ==> id in At(w, ops, j).tables.intents && At(w, ops, j).tables.intents[id].outcome == Prepared
  {
    hide Apply, Stems;
    if b + 1 < k {
      ReceiptAfterStep(At(w, ops, k - 1), ops[k - 1], id);
      assert !Begins(Performed(At(w, ops, k - 1), ops[k - 1]), id);
      StillPrepared(w, ops, b, k - 1, id);
    }
  }

  /** An offset that a run leaves was saved in it and has not changed since. */
  lemma {:induction false} OffsetWasSaved(w: World, ops: seq<Op>, i: nat, k: nat, key: string) returns (s: nat)
    requires i <= k <= |ops| && key in At(w, ops, k).tables.offsets
    requires Lookup(At(w, ops, i).tables.offsets, key) != Lookup(At(w, ops, k).tables.offsets, key)
    ensures i <= s < k && Performed(At(w, ops, s), ops[s]) == Some(SaveOffset(key, At(w, ops, k).tables.offsets[key]))
    ensures forall j :: s < j <= k ==> Lookup(At(w, ops, j).tables.offsets, key) == Lookup(At(w, ops, k).tables.offsets, key)
  {
    hide Apply;
    RowsAfterStep(At(w, ops, k - 1), ops[k - 1], key);
    if SavesOffset(Performed(At(w, ops, k - 1), ops[k - 1]), key) {
      s := k - 1;
    } else {
      s := OffsetWasSaved(w, ops, i, k - 1, key);
    }
  }

  /** The same for a progress row. */
  lemma {:induction false} ProgressWasSaved(w: World, ops: seq<Op>, i: nat, k: nat, key: string) returns (s: nat)
    requires i <= k <= |ops| && key in At(w, ops, k).tables.progress
    requires Lookup(At(w, ops, i).tables.progress, key) != Lookup(At(w, ops, k).tables.progress, key)
    ensures i <= s < k && SavesRow(Performed(At(w, ops, s), ops[s]), key)
    ensures var m := Performed(At(w, ops, s), ops[s]).value; At(w, ops, k).tables.progress[key] == Progress(m.table, m.next, m.cursor)
    ensures forall j :: s < j <= k ==> Lookup(At(w, ops, j).tables.progress, key) == Lookup(At(w, ops, k).tables.progress, key)
  {
    hide Apply;
    RowsAfterStep(At(w, ops, k - 1), ops[k - 1], key);
    if SavesRow(Performed(At(w, ops, k - 1), ops[k - 1]), key) {
      s := k - 1;
    } else {
      s := ProgressWasSaved(w, ops, i, k - 1, key);
    }
  }
}
