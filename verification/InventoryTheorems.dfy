/** No inventory refresh is lost between a commit signal and a scan that has seen it. */
module InventoryTheorems {
  import opened Common
  import opened MaintenanceModel
  import opened MaintenanceOwnership
  import opened MaintenanceWork
  import opened MaintenanceProtocol
  import opened MaintenanceInvariants
  import opened MaintenanceLeases

  predicate Scheduled(db: Db, n: Name) {
    n in db.states && db.states[n].nextInventory.Some?
  }

  /** The table changes owner, its monitor pauses, or it is excluded. */
  ghost predicate Unschedules(db: Db, op: Op, n: Name) {
    && op.Own? && n in db.states && OwnEnabled(db, op.o)
    && (|| (n in Apply(db, op).states && Apply(db, op).states[n].owner != db.states[n].owner)
        || (op.o.SetMonitor? && op.o.status == Paused && db.states[n].owner == Monitor(op.o.m))
        || (op.o.Exclude? && op.o.o == db.states[n].owner && n in op.o.tables))
  }

  /** An ownership step that keeps a table's owner keeps its schedule. */
  ghost predicate KeepsSchedule(db: Db, r: Db, n: Name) {
    n in db.states ==> (
      && n in r.states
      && (r.states[n].owner == db.states[n].owner && db.states[n].nextInventory.Some? ==> r.states[n].nextInventory.Some?))
  }

  lemma {:induction false} ReconcileAllElsewhere(db: Db, keys: seq<Name>, news: News, k: Name)
    requires k in db.states && k !in keys
    ensures Lookup(ReconcileAll(db, keys, news).states, k) == Some(db.states[k])
    decreases |keys|
  {
    if keys != [] {
      ReconcileAllElsewhere(Reconcile(db, keys[0], news), keys[1..], news, k);
    }
  }

  lemma {:induction false} ReconcileAllKeepsSchedule(db: Db, keys: seq<Name>, news: News, k: Name)
    requires forall i, j :: 0 <= i < j < |keys| ==> keys[i] != keys[j]
    ensures KeepsSchedule(db, ReconcileAll(db, keys, news), k)
    decreases |keys|
  {
    if keys != [] && k in db.states {
      var d := Reconcile(db, keys[0], news);
      if k == keys[0] {
        ReconcileAllElsewhere(d, keys[1..], news, k);
      } else {
        ReconcileAllKeepsSchedule(d, keys[1..], news, k);
      }
    }
  }

  /** A released table never falls back to the job that released it. */
  lemma ReleaseMovesOwner(db: Db, owner: string, submission: string, n: Name)
    requires OneSubmission(db.reservations) && ReleaseTouches(db.reservations, owner, submission, n.catalog)
    ensures var w := Winner(Released(db.reservations, owner, submission), n); w.Some? ==> w.value.owner != owner
  {
    WinnerIsPreferred(Released(db.reservations, owner, submission), n);
  }

  lemma ReleaseKeepsSchedule(db: Db, owner: string, submission: string, n: Name)
    requires OneSubmission(db.reservations)
    ensures KeepsSchedule(db, ReleasedDb(db, owner, submission), n)
  {
    if n in db.states && ReleaseTouches(db.reservations, owner, submission, n.catalog) {
      ReleaseMovesOwner(db, owner, submission, n);
    }
  }

  lemma OwnKeepsSchedule(db: Db, op: OwnershipOp, n: Name)
    requires Inv(db) && OwnEnabled(db, op) && Scheduled(db, n) && !Unschedules(db, Own(op), n)
    ensures Scheduled(OwnEffect(db, op), n)
  {
    match op
    case Release(owner, submission) => ReleaseKeepsSchedule(db, owner, submission, n);
    case Discover(news, keys) => ReconcileAllKeepsSchedule(Retargeted(db, news), keys, news, n);
    case _ =>
  }

  /** The columns of a table that task claims leave alone. */
  predicate SameScan(a: map<Name, TableState>, b: map<Name, TableState>, n: Name) {
    n in a && n in b && b[n].nextInventory == a[n].nextInventory && b[n].lastSnapshot == a[n].lastSnapshot
  }

  lemma TurnKeepsRow(db: Db, worker: string, until: Instant, p: Pick, n: Name)
    requires ClaimOne(db, worker, until, p).Ok? && n in db.states
    ensures SameScan(db.states, ClaimOne(db, worker, until, p).value.states, n)
  {
  }

  lemma {:induction false} BatchKeepsRow(db: Db, worker: string, until: Instant, picks: seq<Pick>, n: Name)
    requires ClaimBatch(db, worker, until, picks).Ok? && n in db.states
    ensures SameScan(db.states, ClaimBatch(db, worker, until, picks).value.states, n)
  {
    if picks != [] {
      var before := ClaimBatch(db, worker, until, picks[..|picks| - 1]);
      BatchKeepsRow(db, worker, until, picks[..|picks| - 1], n);
      TurnKeepsRow(before.value, worker, until, picks[|picks| - 1], n);
    }
  }

  /** The schedule and snapshot cursor of one table after a work step. */
  ghost predicate RowAdvance(db: Db, op: WorkOp, s: TableState, r: TableState, n: Name) {
    if op.Signal? && op.n == n then r == Signalled(s, db.now, op.snapshot, op.complete)
    else
      && r.lastSnapshot == s.lastSnapshot
      && (r.nextInventory == s.nextInventory || r.nextInventory.Some? || (op.FinishScan? && op.n == n && s.lastSnapshot == op.claimed))
  }

  lemma WorkRow(db: Db, op: WorkOp, n: Name)
    requires WorkEnabled(db, op) && n in db.states
    ensures n in WorkEffect(db, op).states && RowAdvance(db, op, db.states[n], WorkEffect(db, op).states[n], n)
  {
    if op.ClaimTasks? {
      BatchKeepsRow(db, op.worker, Until(db.now, op.lease), op.picks, n);
    }
  }

  /** The step is the end of a scan that had seen the table's latest signal. */
  ghost predicate CleanFinish(db: Db, op: Op, n: Name) {
    FinishesScan(db, op, n) && n in db.states && db.states[n].lastSnapshot == op.w.claimed
  }

  lemma ScheduleStep(db: Db, op: Op, n: Name)
    requires Inv(db) && Scheduled(db, n)
    ensures Scheduled(Apply(db, op), n) || Unschedules(db, op, n) || CleanFinish(db, op, n)
  {
    match op
    case Own(o) =>
      if OwnEnabled(db, o) && !Unschedules(db, op, n) {
        OwnKeepsSchedule(db, o, n);
      }
    case Work(w) =>
      if WorkEnabled(db, w) {
        WorkRow(db, w, n);
      }
    case _ =>
  }

  ghost predicate NewSignal(db: Db, op: Op, n: Name) {
    op.Work? && op.w.Signal? && op.w.n == n && n in db.states && Differs(db.states[n].lastSnapshot, op.w.snapshot)
  }

  /** Only a new signal changes a table's last snapshot id, and tables are never dropped. */
  lemma LastSnapshotStep(db: Db, op: Op, n: Name)
    requires Inv(db) && n in db.states
    ensures n in Apply(db, op).states
    ensures Apply(db, op).states[n].lastSnapshot == if NewSignal(db, op, n) then op.w.snapshot else db.states[n].lastSnapshot
  {
    match op
    case Own(o) =>
      if OwnEnabled(db, o) {
        OwnKeepsInv(db, o);
        assert SameLeases(db.states[n], OwnEffect(db, o).states[n]);
      }
    case Work(w) =>
      if WorkEnabled(db, w) {
        WorkRow(db, w, n);
      }
    case _ =>
  }

  lemma {:induction false} SnapshotAfter(db: Db, ops: seq<Op>, k: nat, n: Name)
    requires k < |ops| && Inv(At(db, ops, k)) && n in At(db, ops, k).states
    ensures n in At(db, ops, k + 1).states
    ensures At(db, ops, k + 1).states[n].lastSnapshot ==
      if NewSignal(At(db, ops, k), ops[k], n) then ops[k].w.snapshot else At(db, ops, k).states[n].lastSnapshot
  {
    hide Apply;
    LastSnapshotStep(At(db, ops, k), ops[k], n);
  }

  /** After a new signal the table's last snapshot id is that of the last new signal so far. */
  lemma {:induction false} LastSignal(db: Db, ops: seq<Op>, s: nat, f: nat, n: Name) returns (m: nat)
    requires Inv(db) && s < f <= |ops| && NewSignal(At(db, ops, s), ops[s], n)
    ensures s <= m < f && LastNewSignal(db, ops, m, f, n)
    ensures n in At(db, ops, f).states && At(db, ops, f).states[n].lastSnapshot == ops[m].w.snapshot
  {
    hide Apply, Inv;
    RunKeepsInv(db, ops, f - 1);
    if NewSignal(At(db, ops, f - 1), ops[f - 1], n) {
      m := f - 1;
    } else {
      m := LastSignal(db, ops, s, f - 1, n);
    }
    SnapshotAfter(db, ops, f - 1, n);
  }

  /** Step `m` is a new signal, and no later step before `f` is. */
  ghost predicate LastNewSignal(db: Db, ops: seq<Op>, m: nat, f: nat, n: Name)
    requires m < f <= |ops|
  {
    && NewSignal(At(db, ops, m), ops[m], n)
    && forall l :: m < l < f ==> !NewSignal(At(db, ops, l), ops[l], n)
  }

  ghost predicate ClaimedScan(db: Db, op: Op, n: Name, worker: string, seen: int) {
    op.Work? && op.w.ClaimScan? && op.w.n == n && op.w.worker == worker && WorkEnabled(db, op.w) && db.states[n].lastSnapshot == seen
  }

  ghost predicate FinishesScan(db: Db, op: Op, n: Name) {
    op.Work? && op.w.FinishScan? && op.w.n == n && WorkEnabled(db, op.w)
  }

  /** If step `f` finishes a scan, it reports the snapshot id that an earlier claim of the same worker read. */
  ghost predicate HonestFinish(db: Db, ops: seq<Op>, f: nat, n: Name)
    requires f < |ops|
  {
    FinishesScan(At(db, ops, f), ops[f], n) ==>
      exists c :: 0 <= c < f && Scanned(db, ops, c, f, n)
  }

  /** Scanners follow the protocol before step `k`. */
  ghost predicate HonestFinishes(db: Db, ops: seq<Op>, k: nat, n: Name)
    requires k <= |ops|
  {
    forall f :: 0 <= f < k ==> HonestFinish(db, ops, f, n)
  }

  /** Step `f` finishes the scan that step `c` claimed. */
  ghost predicate Scanned(db: Db, ops: seq<Op>, c: nat, f: nat, n: Name)
    requires c < f < |ops|
  {
    && FinishesScan(At(db, ops, f), ops[f], n)
    && ClaimedScan(At(db, ops, c), ops[c], n, ops[f].w.worker, ops[f].w.claimed)
  }

  /** The scan finished at step `f` was claimed after step `s`. */
  ghost predicate CoveredBy(db: Db, ops: seq<Op>, s: nat, f: nat, n: Name)
    requires s < f < |ops|
  {
    exists c :: s < c < f && Scanned(db, ops, c, f, n)
  }

  /** The new signal at step `m` brings back the id that the claim at step `c` read. */
  ghost predicate Returns(db: Db, ops: seq<Op>, c: nat, m: nat, n: Name)
    requires c < |ops| && m < |ops|
  {
    var d := At(db, ops, c);
    && ops[c].Work? && ops[c].w.ClaimScan? && ops[c].w.n == n && WorkEnabled(d, ops[c].w)
    && NewSignal(At(db, ops, m), ops[m], n) && ops[m].w.snapshot == d.states[n].lastSnapshot
  }

  /** A finish clears the schedule if and only if the table's last id is the one its claim read. */
  lemma {:induction false} FinishClearsExactlyWhen(db: Db, ops: seq<Op>, c: nat, f: nat, n: Name)
    requires Inv(db) && c < f < |ops| && Scanned(db, ops, c, f, n)
    ensures !Scheduled(At(db, ops, f + 1), n) <==>
      At(db, ops, f).states[n].lastSnapshot == At(db, ops, c).states[n].lastSnapshot
  {
    assert At(db, ops, f + 1) == Apply(At(db, ops, f), ops[f]);
  }

  /** A new signal during a scan is lost by that scan's finish if and only if it, or a later one,
      brought back the id the claim read, and no new signal followed. */
  lemma {:induction false} SignalLostExactlyWhen(db: Db, ops: seq<Op>, c: nat, s: nat, f: nat, n: Name)
    requires Inv(db) && c < s < f < |ops| && Scanned(db, ops, c, f, n) && NewSignal(At(db, ops, s), ops[s], n)
    ensures !Scheduled(At(db, ops, f + 1), n) <==>
      exists m :: s <= m < f && LastNewSignal(db, ops, m, f, n) && Returns(db, ops, c, m, n)
  {
    hide Apply;
    FinishClearsExactlyWhen(db, ops, c, f, n);
    var m := LastSignal(db, ops, s, f, n);
    forall l | s <= l < f && LastNewSignal(db, ops, l, f, n) ensures l == m {
      assert NewSignal(At(db, ops, l), ops[l], n);
    }
  }

  /** No signal from step `s` on, before step `k`, brings back an id that a claim before `s` read. */
  ghost predicate NoReturn(db: Db, ops: seq<Op>, s: nat, k: nat, n: Name)
    requires s <= k <= |ops|
  {
    forall c, m :: 0 <= c < s <= m < k ==> !Returns(db, ops, c, m, n)
  }

  lemma {:induction false} ClearedByReturn(db: Db, ops: seq<Op>, c: nat, s: nat, f: nat, n: Name)
    requires Inv(db) && c < s < f < |ops| && Scanned(db, ops, c, f, n)
    requires NewSignal(At(db, ops, s), ops[s], n) && CleanFinish(At(db, ops, f), ops[f], n)
    ensures exists m :: s <= m < f && Returns(db, ops, c, m, n)
  {
    hide Apply;
    var m := LastSignal(db, ops, s, f, n);
    assert Returns(db, ops, c, m, n);
  }

  /** The finish that clears a schedule belongs to a scan claimed after the signal. */
  lemma {:induction false} ClearingScanIsLater(db: Db, ops: seq<Op>, s: nat, f: nat, n: Name)
    requires Inv(db) && s < f < |ops| && NoReturn(db, ops, s, f, n) && HonestFinish(db, ops, f, n)
    requires NewSignal(At(db, ops, s), ops[s], n) && CleanFinish(At(db, ops, f), ops[f], n)
    ensures CoveredBy(db, ops, s, f, n)
  {
    hide Apply;
    var c :| 0 <= c < f && Scanned(db, ops, c, f, n);
    if c < s {
      ClearedByReturn(db, ops, c, s, f, n);
    }
  }

  ghost predicate Undisturbed(db: Db, ops: seq<Op>, s: nat, k: nat, n: Name)
    requires k <= |ops|
  {
    forall m :: s < m < k ==> !Unschedules(At(db, ops, m), ops[m], n)
  }

  lemma {:induction false} RefreshSurvivesStep(db: Db, ops: seq<Op>, s: nat, m: nat, n: Name)
    requires Inv(db) && s < m < |ops| && NoReturn(db, ops, s, m, n) && HonestFinish(db, ops, m, n)
    requires NewSignal(At(db, ops, s), ops[s], n)
    requires Scheduled(At(db, ops, m), n) && !Unschedules(At(db, ops, m), ops[m], n)
    ensures Scheduled(Apply(At(db, ops, m), ops[m]), n) || CoveredBy(db, ops, s, m, n)
  {
    hide Apply;
    RunKeepsInv(db, ops, m);
    ScheduleStep(At(db, ops, m), ops[m], n);
    if CleanFinish(At(db, ops, m), ops[m], n) {
      ClearingScanIsLater(db, ops, s, m, n);
    }
  }

  lemma SignalSchedules(db: Db, op: Op, n: Name)
    requires NewSignal(db, op, n) && (db.states[n].complete || op.w.complete)
    ensures Scheduled(Apply(db, op), n)
  {
  }

  lemma {:induction false} LastScheduled(db: Db, ops: seq<Op>, i: nat, k: nat, n: Name) returns (m: nat)
    requires i <= k <= |ops| && Scheduled(At(db, ops, i), n) && !Scheduled(At(db, ops, k), n)
    ensures i <= m < k && Scheduled(At(db, ops, m), n) && !Scheduled(At(db, ops, m + 1), n)
  {
    hide Apply;
    var flags := seq(k - i + 1, j requires 0 <= j <= k - i => Scheduled(At(db, ops, i + j), n));
    var j := LastSet(flags);
    m := i + j;
    assert flags[j] == Scheduled(At(db, ops, m), n) && flags[j + 1] == Scheduled(At(db, ops, m + 1), n);
  }

  /** After a new-snapshot signal on a snapshot-complete table, an inventory check stays scheduled
      until a scan claimed after that signal has finished: across concurrent scans, retries and
      crashed scanners, as long as the table keeps its owner, its monitor does not pause, and no
      signal so far brings back an id that an earlier claim read. */
  lemma {:induction false} NoRefreshLost(db: Db, ops: seq<Op>, s: nat, k: nat, n: Name) returns (f: nat)
    requires Inv(db) && s < k <= |ops| && NoReturn(db, ops, s, k, n) && HonestFinishes(db, ops, k, n)
    requires NewSignal(At(db, ops, s), ops[s], n) && (At(db, ops, s).states[n].complete || ops[s].w.complete)
    requires Undisturbed(db, ops, s, k, n)
    ensures Scheduled(At(db, ops, k), n) || (s < f < k && CoveredBy(db, ops, s, f, n))
  {
    hide Apply;
    f := 0;
    SignalSchedules(At(db, ops, s), ops[s], n);
    if !Scheduled(At(db, ops, k), n) {
      f := LastScheduled(db, ops, s + 1, k, n);
      assert HonestFinish(db, ops, f, n) && NoReturn(db, ops, s, f, n);
      RefreshSurvivesStep(db, ops, s, f, n);
    }
  }

  /** Why ids must not return: on any table that can be scanned now, a scan that claimed it
      clears the schedule of two later signals if the second carries the id the claim read. */
  lemma {:induction false} RepeatedIdLosesRefresh(db: Db, n: Name, worker: string, lease: int, minimum: int, other: int, complete: bool) returns (ops: seq<Op>)
    requires Inv(db) && Scannable(db, n, minimum)
    requires var id := db.states[n].lastSnapshot; id != 0 && Differs(id, other)
    ensures var id := db.states[n].lastSnapshot;
      ops == [Work(ClaimScan(n, worker, lease, minimum)), Work(Signal(n, other, complete)),
              Work(Signal(n, id, complete)), Work(FinishScan(n, worker, id))]
    ensures NewSignal(At(db, ops, 1), ops[1], n) && NewSignal(At(db, ops, 2), ops[2], n) && Scheduled(At(db, ops, 3), n)
    ensures Scanned(db, ops, 0, 3, n) && Returns(db, ops, 0, 2, n)
    ensures Undisturbed(db, ops, 1, 4, n) && !Scheduled(At(db, ops, 4), n)
  {
    var id := db.states[n].lastSnapshot;
    ops := [Work(ClaimScan(n, worker, lease, minimum)), Work(Signal(n, other, complete)),
            Work(Signal(n, id, complete)), Work(FinishScan(n, worker, id))];
    var s1 := Scanning(db.states[n], worker, Until(db.now, lease));
    FourSteps(db, ops);
    TwoSignals(db, n, s1, other, complete);
    assert Apply(db, ops[0]) == SetState(db, n, s1);
  }

  /** Two signals, the second bringing the table's id back, leave a check due. */
  lemma TwoSignals(db: Db, n: Name, s: TableState, other: int, complete: bool)
    requires s.complete && s.lastSnapshot != 0 && Differs(s.lastSnapshot, other)
    ensures var a := Apply(SetState(db, n, s), Work(Signal(n, other, complete)));
      var b := Apply(a, Work(Signal(n, s.lastSnapshot, complete)));
      && NewSignal(SetState(db, n, s), Work(Signal(n, other, complete)), n) && NewSignal(a, Work(Signal(n, s.lastSnapshot, complete)), n)
      && n in b.states && Scheduled(b, n) && b.states[n].lastSnapshot == s.lastSnapshot && b.states[n].invOwner == s.invOwner
  {
  }
}
