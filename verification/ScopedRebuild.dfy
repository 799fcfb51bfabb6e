/** Batch ids of the native snapshot writer, and which receipts each recovery step recognises. */
module ScopedRebuild {
  import opened Common
  import opened JobRegistry
  import opened Checkpoints
  import opened Text

  function Range(start: int, end: int): (s: string) {
    Decimal(start) + "-" + Decimal(end)
  }

  function BatchId(submission: string, table: string, start: int, end: int): (s: string) {
    "rebuild:" + submission + ":" + table + ":native:" + Range(start, end)
  }

  function EpochPrefix(submission: string): (s: string) {
    "rebuild:" + submission + ":"
  }

  predicate IsNativeIntent(i: Intent, job: string, key: string, submission: string) {
    && submission != "" && i.job == job && i.stateKey == key && i.kind == SnapshotKind
    && (i.operation == "append" || i.operation == "delete-append-equality") && i.targetUuid != ""
    && i.sourceTable == i.snapshotTable && i.start >= 0 && i.end > i.start
    && i.batch == BatchId(submission, i.snapshotTable, i.start, i.end)
  }

  /** One row of the startup admission loop. */
  predicate StartAdmits(i: Intent, job: string, key: string, submission: string, allowPrepared: bool, native: bool) {
    var valid := i.outcome == Committed || (allowPrepared && i.outcome == Prepared);
    || (native && valid && IsNativeIntent(i, job, key, submission))
    || (&& i.job == job && i.stateKey == key && i.kind == RebuildKind && EpochPrefix(submission) <= i.batch && valid
        && (allowPrepared || (i.trinoQuery != "" && i.targetUuid != "")))
  }

  /** One row of the in-place writer upgrade. */
  predicate UpgradeAdmits(i: Intent, job: string, key: string, submission: string, mode: string) {
    || (&& i.job == job && i.stateKey == key && i.kind == RebuildKind && EpochPrefix(submission) <= i.batch
        && i.targetUuid != "" && i.trinoQuery != "" && (i.operation == "trino-reset" || i.operation == "trino-merge"))
    || (mode == SCOPED_NATIVE_MODE && IsNativeIntent(i, job, key, submission))
  }

  /** The native writer's receipt of a row range: its batch id names submission, table and range. */
  predicate NativeReceipt(i: Intent, submission: string) {
    && i.kind == SnapshotKind && i.operation in {"append", "delete-append-equality"} && i.targetUuid != ""
    && i.sourceTable == i.snapshotTable && 0 <= i.start < i.end && submission != ""
    && i.batch == "rebuild:" + submission + ":" + i.snapshotTable + ":native:" + Decimal(i.start) + "-" + Decimal(i.end)
  }

  /** A Trino receipt of the epoch. */
  predicate TrinoReceipt(i: Intent, submission: string) {
    i.kind == RebuildKind && "rebuild:" + submission + ":" <= i.batch
  }

  predicate Identified(i: Intent) {
    i.trinoQuery != "" && i.targetUuid != ""
  }

  /** What a start and an upgrade recognise: only the job's own receipts under the state key; native
      ones where the native writer may have written, and Trino ones of this epoch, identified
      unless the start lets PREPARED receipts pass. */
  lemma RecognisedExactlyWhen(i: Intent, job: string, key: string, submission: string, allowPrepared: bool, native: bool, mode: string)
    ensures StartAdmits(i, job, key, submission, allowPrepared, native) <==>
      && i.job == job && i.stateKey == key && (i.outcome == Committed || allowPrepared)
      && ((native && NativeReceipt(i, submission)) || (TrinoReceipt(i, submission) && (allowPrepared || Identified(i))))
    ensures UpgradeAdmits(i, job, key, submission, mode) <==>
      && i.job == job && i.stateKey == key
      && (|| (mode == "rebuild-scoped-native-v2" && NativeReceipt(i, submission))
          || (TrinoReceipt(i, submission) && Identified(i) && i.operation in {"trino-reset", "trino-merge"}))
  {
    var table := "rebuild:" + submission + ":" + i.snapshotTable + ":native:";
    assert table + (Decimal(i.start) + "-" + Decimal(i.end)) == table + Decimal(i.start) + "-" + Decimal(i.end);
  }

  /** `state_key = ? OR job_id = ?` */
  predicate Listed(t: Tables, id: string, key: string, job: string) {
    id in t.intents && (t.intents[id].stateKey == key || t.intents[id].job == job)
  }

  predicate StartAdmission(t: Tables, job: string, key: string, submission: string, allowPrepared: bool, native: bool) {
    forall id :: id in t.intents && Listed(t, id, key, job) ==> StartAdmits(t.intents[id], job, key, submission, allowPrepared, native)
  }

  predicate UpgradeAdmission(t: Tables, job: string, key: string, submission: string, mode: string) {
    forall id :: id in t.intents && Listed(t, id, key, job) ==> UpgradeAdmits(t.intents[id], job, key, submission, mode)
  }

  /** Nothing of an earlier checkpoint is left under either key. */
  predicate EmptyCheckpoint(t: Tables, job: string, key: string) {
    forall k :: k in {key, job} ==> k !in t.offsets && k !in t.snapshots && k !in t.progress
  }

  lemma RangeInjective(i: int, j: int, i': int, j': int)
    requires Range(i, j) == Range(i', j')
    ensures i == i' && j == j'
  {
    DecimalShape(i);
    DecimalShape(i');
    var r := Range(i, j);
    assert r[0] == Decimal(i)[0] && r[0] == Decimal(i')[0];
    RangeTail(i, j);
    RangeTail(i', j');
    SplitFirst(Digits(Magnitude(i)), Decimal(j), Digits(Magnitude(i')), Decimal(j'), '-');
    DigitsInjective(Magnitude(i), Magnitude(i'));
    DecimalInjective(j, j');
  }

  lemma RangeTail(i: int, j: int)
    ensures |Range(i, j)| > 0
    ensures (if i < 0 then Range(i, j)[1..] else Range(i, j)) == Digits(Magnitude(i)) + ['-'] + Decimal(j)
  {
  }

  function Head(scope: string): (h: string) {
    "rebuild:" + scope + ":native"
  }

  lemma HeadInjective(scope: string, scope': string)
    requires Head(scope) == Head(scope')
    ensures scope == scope'
  {
    assert scope == Head(scope)[8..|Head(scope)| - 7] && scope' == Head(scope')[8..|Head(scope')| - 7];
  }

  lemma BatchIdParts(s: string, t: string, i: int, j: int)
    ensures BatchId(s, t, i, j) == Head(s + ":" + t) + [':'] + Range(i, j)
  {
  }

  lemma PartsCoincide(scope: string, i: int, j: int, scope': string, i': int, j': int)
    requires Head(scope) + [':'] + Range(i, j) == Head(scope') + [':'] + Range(i', j')
    ensures scope == scope' && i == i' && j == j'
  {
    SplitLast(Head(scope), Range(i, j), Head(scope'), Range(i', j'), ':');
    RangeInjective(i, j, i', j');
    HeadInjective(scope, scope');
  }

  /** Exactly when two batch ids coincide: equal row ranges, and equal epoch-and-table text. */
  lemma BatchIdsCoincide(s: string, t: string, i: int, j: int, s': string, t': string, i': int, j': int)
    ensures BatchId(s, t, i, j) == BatchId(s', t', i', j') <==> s + ":" + t == s' + ":" + t' && i == i' && j == j'
  {
    var scope, scope' := s + ":" + t, s' + ":" + t';
    BatchIdParts(s, t, i, j);
    BatchIdParts(s', t', i', j');
    if BatchId(s, t, i, j) == BatchId(s', t', i', j') {
      PartsCoincide(scope, i, j, scope', i', j');
    }
  }

  /** Batch ids are injective in submission, table and row range when submissions have no colon. */
  lemma BatchIdInjective(s: string, t: string, i: int, j: int, s': string, t': string, i': int, j': int)
    requires ':' !in s && ':' !in s'
    requires BatchId(s, t, i, j) == BatchId(s', t', i', j')
    ensures s == s' && t == t' && i == i' && j == j'
  {
    BatchIdsCoincide(s, t, i, j, s', t', i', j');
    SplitFirst(s, t, s', t', ':');
  }

  /** Without that, two epochs can write the same batch id. */
  lemma BatchIdCollision()
    ensures BatchId("a", "b:c", 0, 1) == BatchId("a:b", "c", 0, 1)
  {
  }

  /** No receipt is recognised in two epochs, by either recognition rule. */
  lemma OneEpochPerIntent(i: Intent, job: string, key: string, s: string, s': string, prepared: bool, prepared': bool, native: bool, native': bool)
    requires ':' !in s && ':' !in s'
    requires StartAdmits(i, job, key, s, prepared, native) && StartAdmits(i, job, key, s', prepared', native')
    ensures s == s'
  {
    if i.kind == SnapshotKind {
      BatchIdInjective(s, i.snapshotTable, i.start, i.end, s', i.snapshotTable, i.start, i.end);
    } else {
      var b, p, p' := i.batch, EpochPrefix(s), EpochPrefix(s');
      assert b == p + b[|p|..] && b == p' + b[|p'|..];
      var rest := b[8..];
      assert rest == s + [':'] + b[|p|..] && rest == s' + [':'] + b[|p'|..];
      SplitFirst(s, b[|p|..], s', b[|p'|..], ':');
    }
  }

  /** Every receipt set the in-place upgrade accepts is accepted at the next start, which
      runs in native mode; a start that allows no PREPARED receipt accepts it exactly when
      all listed outcomes are COMMITTED. */
  lemma UpgradeThenStart(t: Tables, job: string, key: string, submission: string, mode: string)
    requires UpgradeAdmission(t, job, key, submission, mode)
    ensures StartAdmission(t, job, key, submission, true, true)
    ensures StartAdmission(t, job, key, submission, false, true) <==>
      forall id :: id in t.intents && Listed(t, id, key, job) ==> t.intents[id].outcome == Committed
  {
  }
}
