/** The checkpoint tables (offsets, snapshot starts, snapshot progress, Iceberg commit
    intents) and the statements that change them. */
module Checkpoints {
  import opened Common

  datatype Offset = Offset(file: string, pos: nat)

  datatype Snapshot = Snapshot(start: Offset, done: bool, version: int)

  datatype Progress = Progress(table: string, next: int, cursor: string)

  datatype Kind = SnapshotKind | RebuildKind | OtherKind(name: string)

  datatype Outcome = Prepared | Committed

  datatype Intent = Intent(
    job: string,
    stateKey: string,
    batch: string,
    kind: Kind,
    sourceTable: string,
    snapshotTable: string,
    start: int,
    end: int,
    operation: string,
    targetUuid: string,
    trinoQuery: string,
    outcome: Outcome)

  /** Each table by its primary key; intents by operation id. */
  datatype Tables = Tables(
    offsets: map<string, Offset>,
    snapshots: map<string, Snapshot>,
    progress: map<string, Progress>,
    intents: map<string, Intent>)

  /** One call of the offset store. `SaveProgress` is two statements: run in one
      transaction when fenced, and as `UpsertProgress` then `PruneCovered` otherwise. */
  datatype Mutation =
    | SaveOffset(key: string, offset: Offset)
    | SaveStart(key: string, start: Offset)
    | MarkDone(key: string)
    | UpsertProgress(key: string, table: string, next: int, cursor: string)
    | PruneCovered(key: string, table: string, next: int)
    | SaveProgress(key: string, table: string, next: int, cursor: string)
    | ClearProgress(key: string)
    | DeleteState(key: string)
    | BeginCommit(id: string, intent: Intent)
    | MarkCommitted(key: string, id: string)
    | DeleteCommit(key: string, id: string)
    | RecordQuery(key: string, id: string, query: string)

  function KeyOf(m: Mutation): (k: string) {
    if m.BeginCommit? then m.intent.stateKey else m.key
  }

  predicate Confirmed(t: Tables, key: string) {
    key in t.snapshots && t.snapshots[key].done && t.snapshots[key].version == 1
  }

  /** Every intent under the state key has a known, durable outcome. */
  predicate Settled(t: Tables, key: string) {
    forall id :: id in t.intents && t.intents[id].stateKey == key ==> t.intents[id].outcome == Committed
  }

  predicate Retains(t: Tables, key: string) {
    exists id :: id in t.intents && (t.intents[id].stateKey == key || t.intents[id].job == key)
  }

  /** The durable progress row covers the intent's whole row range. */
  predicate Covered(t: Tables, i: Intent) {
    && i.stateKey in t.progress
    && t.progress[i.stateKey].table == i.snapshotTable
    && i.end <= t.progress[i.stateKey].next
  }

  predicate Prunable(i: Intent, key: string, table: string, next: int) {
    i.stateKey == key && i.kind == SnapshotKind && i.outcome == Committed && i.snapshotTable == table && i.end <= next
  }

  function Upserted(t: Tables, key: string, table: string, next: int, cursor: string): (r: Tables) {
    t.(progress := t.progress[key := Progress(table, next, cursor)])
  }

  function Pruned(t: Tables, key: string, table: string, next: int): (r: Tables) {
    t.(intents := map id | id in t.intents && !Prunable(t.intents[id], key, table, next) :: t.intents[id])
  }

  function StateDeleted(t: Tables, key: string): (r: Tables) {
    t.(offsets := t.offsets - {key}, snapshots := t.snapshots - {key}, progress := t.progress - {key})
  }

  predicate QueryRow(t: Tables, key: string, id: string) {
    id in t.intents && t.intents[id].stateKey == key && t.intents[id].kind == RebuildKind && t.intents[id].outcome == Prepared
  }

  /** The effect of one store call on the tables. */
  function Mutate(t: Tables, m: Mutation): (r: Result<Tables>) {
    match m
    case SaveOffset(key, offset) => Ok(t.(offsets := t.offsets[key := offset]))
    case SaveStart(key, start) => Ok(t.(snapshots := t.snapshots[key := Snapshot(start, false, 0)]))
    case MarkDone(key) =>
      if key in t.snapshots && !t.snapshots[key].done && Settled(t, key) then
        Ok(t.(snapshots := t.snapshots[key := t.snapshots[key].(done := true, version := 1)]))
      else if Confirmed(t, key) then Ok(t)
      else Err("snapshot completion BLOCKED")
    case UpsertProgress(key, table, next, cursor) => Ok(Upserted(t, key, table, next, cursor))
    case PruneCovered(key, table, next) => Ok(Pruned(t, key, table, next))
    case SaveProgress(key, table, next, cursor) => Ok(Pruned(Upserted(t, key, table, next, cursor), key, table, next))
    case ClearProgress(key) => Ok(t.(progress := t.progress - {key}))
    case DeleteState(key) => if Retains(t, key) then Err("job state cleanup BLOCKED") else Ok(StateDeleted(t, key))
    case BeginCommit(id, intent) =>
      if id in t.intents then Err("duplicate operation id")
      else Ok(t.(intents := t.intents[id := intent.(outcome := Prepared, trinoQuery := "")]))
    case MarkCommitted(key, id) =>
      if id in t.intents && t.intents[id].stateKey == key && t.intents[id].outcome == Prepared then
        Ok(t.(intents := t.intents[id := t.intents[id].(outcome := Committed)]))
      else Err("commit intent cannot be marked committed")
    case DeleteCommit(key, id) =>
      if id in t.intents && t.intents[id].stateKey == key then Ok(t.(intents := t.intents - {id})) else Ok(t)
    case RecordQuery(key, id, query) =>
      if query == "" then Err("empty Trino query identity")
      else if !QueryRow(t, key, id) then Err("no such rebuild intent")
      else if t.intents[id].trinoQuery != "" && t.intents[id].trinoQuery != query then Err("Trino query identity changed")
      else Ok(t.(intents := t.intents[id := t.intents[id].(trinoQuery := query)]))
  }

  /** The tables after a call, whether it succeeded or not. */
  function After(t: Tables, m: Mutation): (r: Tables) {
    var o := Mutate(t, m);
    if o.Ok? then o.value else t
  }

  /** Everything the tables say about one state key, apart from intents. */
  predicate SameAt(t: Tables, u: Tables, key: string) {
    && Lookup(t.offsets, key) == Lookup(u.offsets, key)
    && Lookup(t.snapshots, key) == Lookup(u.snapshots, key)
    && Lookup(t.progress, key) == Lookup(u.progress, key)
  }

  /** A call addressed to one state key leaves every other key's rows and intents alone. */
  lemma MutationIsLocal(t: Tables, m: Mutation, key: string, id: string)
    requires key != KeyOf(m)
    ensures SameAt(t, After(t, m), key)
    ensures id in t.intents && t.intents[id].stateKey == key ==> Lookup(After(t, m).intents, id) == Some(t.intents[id])
    ensures id !in t.intents && id in After(t, m).intents ==> After(t, m).intents[id].stateKey == KeyOf(m)
  {
  }

  /** A commit whose outcome is unknown leaves the table in two ways only. */
  lemma PreparedSurvives(t: Tables, m: Mutation, id: string)
    requires id in t.intents && t.intents[id].outcome == Prepared
    ensures var u := After(t, m);
      || (id in u.intents && u.intents[id] == t.intents[id].(trinoQuery := u.intents[id].trinoQuery))
      || (m == MarkCommitted(t.intents[id].stateKey, id) && u.intents == t.intents[id := t.intents[id].(outcome := Committed)])
      || (m == DeleteCommit(t.intents[id].stateKey, id) && u.intents == t.intents - {id})
  {
  }

  /** A receipt disappears only by explicit deletion, or under progress that reaches past it. */
  lemma ReceiptDropped(t: Tables, m: Mutation, id: string)
    requires id in t.intents && id !in After(t, m).intents
    ensures
      || m == DeleteCommit(t.intents[id].stateKey, id)
      || (m.SaveProgress? && t.intents[id].outcome == Committed && Covered(After(t, m), t.intents[id]))
      || (m.PruneCovered? && Prunable(t.intents[id], m.key, m.table, m.next))
  {
  }

  /** A snapshot becomes confirmed only by a completion mark on an open start with every intent settled. */
  lemma ConfirmationHasEvidence(t: Tables, m: Mutation, key: string)
    requires !Confirmed(t, key) && Confirmed(After(t, m), key)
    ensures m == MarkDone(key) && key in t.snapshots && !t.snapshots[key].done && Settled(t, key)
    ensures After(t, m).snapshots[key].start == t.snapshots[key].start
  {
  }

  /** Repeating the completion mark is harmless, and a legacy `done` row refuses it. */
  lemma MarkTwice(t: Tables, key: string)
    ensures Mutate(t, MarkDone(key)).Ok? ==> Mutate(Mutate(t, MarkDone(key)).value, MarkDone(key)) == Mutate(t, MarkDone(key))
    ensures Mutate(t, MarkDone(key)).Ok? ==> Confirmed(Mutate(t, MarkDone(key)).value, key)
    ensures key in t.snapshots && t.snapshots[key].done && t.snapshots[key].version != 1 ==> Mutate(t, MarkDone(key)).Err?
  {
  }
}
