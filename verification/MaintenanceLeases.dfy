/** Mutual exclusion of table work: a maintenance task and an inventory scan never hold the
    same table at once, and neither is displaced before its release or expiry. */
module MaintenanceLeases {
  import opened Common
  import opened MaintenanceModel
  import opened MaintenanceOwnership
  import opened MaintenanceWork
  import opened MaintenanceProtocol
  import opened MaintenanceInvariants
  import opened BatchClaim

  predicate ExecLive(db: Db, n: Name) {
    n in db.states && !Free(db.states[n].leaseUntil, db.now)
  }

  predicate ScanLive(db: Db, n: Name) {
    n in db.states && !Free(db.states[n].invUntil, db.now)
  }

  ghost predicate Separate(db: Db) {
    forall n :: n in db.states ==> !(ExecLive(db, n) && ScanLive(db, n))
  }

  /** The caller's obligation: a table lease is renewed only while it is unexpired. */
  ghost predicate RenewsLive(db: Db, op: Op) {
    op.Work? && op.w.Renew? ==> ExecLive(db, op.w.n)
  }

  /** The two leases of a table after a work step. */
  ghost predicate LeaseChange(db: Db, op: WorkOp, s: TableState, r: TableState, n: Name) {
    || (r.leaseOwner == s.leaseOwner && r.leaseUntil == s.leaseUntil && r.invOwner == s.invOwner && r.invUntil == s.invUntil)
    || (op.ClaimScan? && op.n == n && Idle(s, db.now) && r.leaseOwner == s.leaseOwner && r.leaseUntil == s.leaseUntil
        && r.invOwner == Some(op.worker) && r.invUntil == Some(Until(db.now, op.lease)))
    || ((op.FinishScan? || op.RetryScan?) && op.n == n && s.invOwner == Some(op.worker)
        && r.leaseOwner == s.leaseOwner && r.leaseUntil == s.leaseUntil && r.invOwner.None? && r.invUntil.None?)
    || (op.ClaimTasks? && Idle(s, db.now) && Takes(db, op.picks, n) && r.invOwner == s.invOwner && r.invUntil == s.invUntil
        && r.leaseOwner == Some(op.worker) && r.leaseUntil == Some(Until(db.now, op.lease)))
    || (op.Renew? && op.n == n && s.leaseOwner == Some(op.worker) && r.leaseOwner == s.leaseOwner && r.leaseUntil == Some(op.until)
        && r.invOwner == s.invOwner && r.invUntil == s.invUntil)
    || (op.ReleaseTable? && op.n == n && s.leaseOwner == Some(op.worker) && r.leaseOwner.None? && r.leaseUntil.None?
        && r.invOwner == s.invOwner && r.invUntil == s.invUntil)
    || (op.Recover? && Expired(s.leaseUntil, db.now) && r.leaseOwner.None? && r.leaseUntil.None?
        && r.invOwner == s.invOwner && r.invUntil == s.invUntil)
  }

  lemma BatchLeases(db: Db, op: WorkOp, n: Name)
    requires op.ClaimTasks? && WorkEnabled(db, op) && n in db.states
    ensures var r := WorkEffect(db, op); n in r.states && LeaseChange(db, op, db.states[n], r.states[n], n)
  {
    BatchIsAllOrNothing(db, op.worker, Until(db.now, op.lease), op.picks);
    if Takes(db, op.picks, n) {
      var k :| 0 <= k < |op.picks| && AcceptedOn(db, op.picks[k], n);
      assert Accepted(db, op.picks[k]);
    }
  }

  lemma WorkLeases(db: Db, op: WorkOp, n: Name)
    requires WorkEnabled(db, op) && n in db.states
    ensures var r := WorkEffect(db, op);
      r.now == db.now && r.states.Keys == db.states.Keys && LeaseChange(db, op, db.states[n], r.states[n], n)
  {
    hide TasksAdvance, SameOwnership;
    WorkFrame(db, op);
    if op.ClaimTasks? {
      BatchLeases(db, op, n);
    }
  }

  lemma StepKeepsSeparate(db: Db, op: Op)
    requires Inv(db) && Separate(db) && RenewsLive(db, op)
    ensures Separate(Apply(db, op))
  {
    hide Inv, OwnEffect, WorkEffect, OwnEnabled, WorkEnabled;
    match op
    case Own(o) =>
      if OwnEnabled(db, o) {
        OwnKeepsInv(db, o);
      }
    case Work(w) =>
      if WorkEnabled(db, w) {
        WorkFrame(db, w);
        forall n | n in db.states ensures !(ExecLive(WorkEffect(db, w), n) && ScanLive(WorkEffect(db, w), n)) {
          WorkLeases(db, w, n);
          assert !(ExecLive(db, n) && ScanLive(db, n));
        }
      }
    case _ =>
      forall n | n in db.states ensures !(ExecLive(Apply(db, op), n) && ScanLive(Apply(db, op), n)) {
        assert !(ExecLive(db, n) && ScanLive(db, n));
      }
  }

  /** Every renewal among the first `k` steps meets its obligation. */
  ghost predicate Diligent(db: Db, ops: seq<Op>, k: nat)
    requires k <= |ops|
  {
    forall m :: 0 <= m < k ==> RenewsLive(At(db, ops, m), ops[m])
  }

  /** No table is ever under a live task lease and a live scan lease at once, in every run whose
      holders renew only while unexpired. */
  lemma {:induction false} NeverBothLive(db: Db, ops: seq<Op>, k: nat)
    requires Inv(db) && Separate(db) && k <= |ops| && Diligent(db, ops, k)
    ensures Separate(At(db, ops, k))
  {
    hide Apply;
    if k > 0 {
      NeverBothLive(db, ops, k - 1);
      RunKeepsInv(db, ops, k - 1);
      StepKeepsSeparate(At(db, ops, k - 1), ops[k - 1]);
    }
  }

  /** The renewal statement itself does not test expiry: it keeps the leases apart exactly when
      no scan has entered the table since, or the new deadline is already past. */
  lemma RenewalSafeExactlyWhen(db: Db, id: nat, n: Name, worker: string, until: Instant)
    requires Separate(db) && WorkEnabled(db, Renew(id, n, worker, until))
    ensures Separate(WorkEffect(db, Renew(id, n, worker, until))) <==> until < db.now || !ScanLive(db, n)
  {
    var r := WorkEffect(db, Renew(id, n, worker, until));
    forall k | k in db.states && k != n ensures !(ExecLive(r, k) && ScanLive(r, k)) {
      assert !(ExecLive(db, k) && ScanLive(db, k));
    }
    assert ScanLive(r, n) <==> ScanLive(db, n);
    assert ExecLive(r, n) <==> db.now <= until;
  }

  lemma ClaimOfOne(db: Db, worker: string, until: Instant, p: Pick)
    ensures ClaimBatch(db, worker, until, [p]) == ClaimOne(db, worker, until, p)
  {
    assert [p][..0] == [];
  }

  /** The state after one claimed task. */
  function Taken(db: Db, id: nat, worker: string, until: Instant): (r: Db)
    requires id in db.tasks && db.tasks[id].table in db.states
  {
    var n := db.tasks[id].table;
    db.(states := db.states[n := LeasedState(db.states[n], worker, until)], tasks := db.tasks[id := LeasedTask(db.tasks[id], worker, until)])
  }

  lemma TakeTask(db: Db, id: nat, worker: string, lease: int)
    requires id in db.tasks && Accepted(db, Pick(id, db.tasks[id].owner)) && Idle(db.states[db.tasks[id].table], db.now)
    ensures Apply(db, Work(ClaimTasks(worker, lease, [Pick(id, db.tasks[id].owner)]))) == Taken(db, id, worker, Until(db.now, lease))
  {
    ClaimOfOne(db, worker, Until(db.now, lease), Pick(id, db.tasks[id].owner));
  }

  /** When the task's lease has run out, a scan may enter, and the stale holder may still renew. */
  lemma EnterAndRenew(db: Db, id: nat, n: Name, worker: string, scanner: string, lease: nat, minimum: int, until: Instant)
    requires TaskHeld(db, id, worker) && TableHeld(db, n, worker) && Scannable(db, n, minimum) && 0 < lease && db.now <= until
    ensures var scanned := Apply(db, Work(ClaimScan(n, scanner, lease, minimum)));
      var op := Work(Renew(id, n, worker, until));
      && !ExecLive(scanned, n) && ScanLive(scanned, n) && Enabled(scanned, op)
      && !Separate(Apply(scanned, op))
  {
    var scanned := Apply(db, Work(ClaimScan(n, scanner, lease, minimum)));
    var r := Apply(scanned, Work(Renew(id, n, worker, until)));
    assert ExecLive(r, n) && ScanLive(r, n);
  }

  lemma ExpiredTableIsScannable(db: Db, id: nat, worker: string, lease: nat, minimum: int)
    requires id in db.tasks && Scannable(db, db.tasks[id].table, minimum) && 0 < lease
    ensures var d := Taken(db, id, worker, Until(db.now, lease));
      var later := Apply(d, Tick(lease + 1));
      && later == d.(now := d.now + lease + 1) && Scannable(later, db.tasks[id].table, minimum)
      && TaskHeld(later, id, worker) && TableHeld(later, db.tasks[id].table, worker)
  {
  }

  /** A stale holder renews into a running scan: from every state where a table has a task that
      can be claimed and a scan that is due, the run of claim, expiry, scan claim and renewal
      puts both leases on the table. */
  lemma {:induction false} StaleRenewalOverlaps(db: Db, id: nat, worker: string, scanner: string, lease: nat, minimum: int, until: Instant) returns (ops: seq<Op>)
    requires id in db.tasks && Accepted(db, Pick(id, db.tasks[id].owner)) && Scannable(db, db.tasks[id].table, minimum)
    requires 0 < lease && db.now + lease + 1 <= until
    ensures var n := db.tasks[id].table;
      && ops == [Work(ClaimTasks(worker, lease, [Pick(id, db.tasks[id].owner)])), Tick(lease + 1),
                 Work(ClaimScan(n, scanner, lease, minimum)), Work(Renew(id, n, worker, until))]
      && !ExecLive(At(db, ops, 3), n) && !Separate(At(db, ops, 4))
  {
    var n := db.tasks[id].table;
    ops := [Work(ClaimTasks(worker, lease, [Pick(id, db.tasks[id].owner)])), Tick(lease + 1),
            Work(ClaimScan(n, scanner, lease, minimum)), Work(Renew(id, n, worker, until))];
    var d := Taken(db, id, worker, Until(db.now, lease));
    hide Apply, Separate, ExecLive, ScanLive, Scannable, TaskHeld, TableHeld;
    var later := d.(now := d.now + lease + 1);
    TakeTask(db, id, worker, lease);
    ExpiredTableIsScannable(db, id, worker, lease, minimum);
    EnterAndRenew(later, id, n, worker, scanner, lease, minimum, until);
    FourSteps(db, ops);
    assert At(db, ops, 2) == later;
  }

  lemma {:induction false} FourSteps(db: Db, ops: seq<Op>)
    requires |ops| == 4
    ensures At(db, ops, 0) == db && At(db, ops, 1) == Apply(db, ops[0])
    ensures At(db, ops, 2) == Apply(At(db, ops, 1), ops[1]) && At(db, ops, 3) == Apply(At(db, ops, 2), ops[2])
    ensures At(db, ops, 4) == Apply(At(db, ops, 3), ops[3])
  {
  }

  /** Such states satisfy every invariant, for instance with the table of an active monitor. */
  lemma OverlapNeedsNothingOdd(n: Name) returns (db: Db)
    ensures Inv(db) && Separate(db) && n in db.states && db.states[n].owner == Monitor(0) && MonitorActive(db, Monitor(0))
    ensures 0 in db.tasks && db.tasks[0].table == n && Accepted(db, Pick(0, db.tasks[0].owner)) && Scannable(db, n, 0)
  {
    var s := TableState(MonitorType, Monitor(0), true, 0, Some(5), 0, None, None, None, None, None);
    var t := NewTask(n, Monitor(0), "compact", "", 0);
    db := Db(10, map[], map[], [], map[0 := Active], map[], map[n := s], map[0 := t]);
  }

  // ---- Claims against a holder ----

  /** The step claims the table, for a task or for a scan. */
  ghost predicate ClaimsTable(db: Db, op: Op, n: Name) {
    op.Work? && ((op.w.ClaimScan? && op.w.n == n) || (op.w.ClaimTasks? && Takes(db, op.w.picks, n)))
  }

  /** While either lease is live every claim of either kind on the table fails. */
  lemma LiveTableRefusesClaims(db: Db, op: Op, n: Name)
    requires (ExecLive(db, n) || ScanLive(db, n)) && ClaimsTable(db, op, n)
    ensures !Enabled(db, op)
  {
    if op.w.ClaimTasks? && DistinctIds(op.w.picks) {
      BatchIsAllOrNothing(db, op.w.worker, Until(db.now, op.w.lease), op.w.picks);
      var k :| 0 <= k < |op.w.picks| && AcceptedOn(db, op.w.picks[k], n);
      assert Accepted(db, op.w.picks[k]);
    }
  }

  lemma HolderStep(db: Db, op: Op, n: Name, worker: string)
    requires Inv(db)
    requires TableHeld(db, n, worker) && ExecLive(db, n) && op != Work(ReleaseTable(n, worker))
    ensures TableHeld(Apply(db, op), n, worker)
  {
    match op
    case Own(o) =>
      if OwnEnabled(db, o) {
        OwnKeepsInv(db, o);
        assert SameLeases(db.states[n], OwnEffect(db, o).states[n]);
      }
    case Work(w) =>
      if WorkEnabled(db, w) {
        WorkLeases(db, w, n);
      }
    case _ =>
  }

  /** From a task claim until its holder releases the table or lets it expire, the lease stays
      with that holder and no claim of either kind on the table succeeds. */
  lemma {:induction false} TaskLeaseHolds(db: Db, ops: seq<Op>, i: nat, k: nat, n: Name, worker: string)
    requires Inv(db) && i <= k <= |ops| && TableHeld(At(db, ops, i), n, worker)
    requires forall m :: i <= m <= k && TableHeld(At(db, ops, m), n, worker) ==> ExecLive(At(db, ops, m), n)
    requires forall m :: i <= m < k ==> ops[m] != Work(ReleaseTable(n, worker))
    ensures TableHeld(At(db, ops, k), n, worker)
    ensures forall op :: ClaimsTable(At(db, ops, k), op, n) ==> !Enabled(At(db, ops, k), op)
  {
    hide Apply;
    if i < k {
      TaskLeaseHolds(db, ops, i, k - 1, n, worker);
      RunKeepsInv(db, ops, k - 1);
      HolderStep(At(db, ops, k - 1), ops[k - 1], n, worker);
    }
    forall op | ClaimsTable(At(db, ops, k), op, n) ensures !Enabled(At(db, ops, k), op) {
      LiveTableRefusesClaims(At(db, ops, k), op, n);
    }
  }

  predicate ScanBy(db: Db, n: Name, worker: string, until: Instant) {
    n in db.states && db.states[n].invOwner == Some(worker) && db.states[n].invUntil == Some(until)
  }

  lemma ScannerStep(db: Db, op: Op, n: Name, worker: string, until: Instant)
    requires Inv(db)
    requires ScanBy(db, n, worker, until) && db.now <= until
    requires !(op.Work? && (op.w.FinishScan? || op.w.RetryScan?) && op.w.n == n && op.w.worker == worker)
    ensures ScanBy(Apply(db, op), n, worker, until)
  {
    match op
    case Own(o) =>
      if OwnEnabled(db, o) {
        OwnKeepsInv(db, o);
        assert SameLeases(db.states[n], OwnEffect(db, o).states[n]);
      }
    case Work(w) =>
      if WorkEnabled(db, w) {
        WorkLeases(db, w, n);
      }
    case _ =>
  }

  /** From a scan claim until that scanner finishes, retries or passes its deadline, the scan
      keeps the table and no claim of either kind on it succeeds. */
  lemma {:induction false} ScanLeaseHolds(db: Db, ops: seq<Op>, i: nat, k: nat, n: Name, worker: string, until: Instant)
    requires Inv(db) && i <= k <= |ops| && ScanBy(At(db, ops, i), n, worker, until)
    requires forall m :: i <= m <= k ==> At(db, ops, m).now <= until
    requires forall m :: i <= m < k ==> !(ops[m].Work? && (ops[m].w.FinishScan? || ops[m].w.RetryScan?) && ops[m].w.n == n && ops[m].w.worker == worker)
    ensures ScanBy(At(db, ops, k), n, worker, until)
    ensures forall op :: ClaimsTable(At(db, ops, k), op, n) ==> !Enabled(At(db, ops, k), op)
  {
    hide Apply;
    if i < k {
      ScanLeaseHolds(db, ops, i, k - 1, n, worker, until);
      RunKeepsInv(db, ops, k - 1);
      ScannerStep(At(db, ops, k - 1), ops[k - 1], n, worker, until);
    }
    forall op | ClaimsTable(At(db, ops, k), op, n) ensures !Enabled(At(db, ops, k), op) {
      LiveTableRefusesClaims(At(db, ops, k), op, n);
    }
  }

  // ---- The task row ----

  /** The holder finishes the task, or the recovery runs past its deadline. */
  ghost predicate EndsTask(db: Db, op: Op, id: nat, worker: string) {
    op.Work? && ((op.w.FinishTask? && op.w.id == id && op.w.worker == worker)
                 || (op.w.Recover? && id in db.tasks && Expired(db.tasks[id].leaseUntil, db.now)))
  }

  ghost predicate RenewsTask(op: Op, id: nat, worker: string, until: Instant) {
    op.Work? && ((op.w.Renew? && op.w.id == id && op.w.worker == worker && op.w.until == until) || op.w == RenewTask(id, worker, until))
  }

  /** A batch leaves a leased task alone. */
  lemma BatchSkipsLeased(db: Db, op: WorkOp, id: nat, worker: string)
    requires op.ClaimTasks? && WorkEnabled(db, op) && TaskHeld(db, id, worker)
    ensures id in WorkEffect(db, op).tasks && WorkEffect(db, op).tasks[id] == db.tasks[id]
  {
    BatchIsAllOrNothing(db, op.worker, Until(db.now, op.lease), op.picks);
    if k :| 0 <= k < |op.picks| && op.picks[k].id == id {
      assert WorkEffect(db, op).tasks[id] == Outcome(db, op.picks[k], op.worker, Until(db.now, op.lease));
    }
  }

  lemma WorkOnLeased(db: Db, w: WorkOp, id: nat, worker: string)
    requires WorkEnabled(db, w) && TaskHeld(db, id, worker)
    ensures TaskHeld(WorkEffect(db, w), id, worker) <==> !EndsTask(db, Work(w), id, worker)
    ensures TaskHeld(WorkEffect(db, w), id, worker) ==> var t := WorkEffect(db, w).tasks[id];
      t.leaseUntil == db.tasks[id].leaseUntil || (t.leaseUntil.Some? && RenewsTask(Work(w), id, worker, t.leaseUntil.value))
  {
    if w.ClaimTasks? {
      BatchSkipsLeased(db, w, id, worker);
    }
  }

  /** Exactly those steps take a leased task from its worker, and only that worker's renewals
      move its deadline. */
  lemma TaskLostExactlyBy(db: Db, op: Op, id: nat, worker: string)
    requires Inv(db) && TaskHeld(db, id, worker)
    ensures TaskHeld(Apply(db, op), id, worker) <==> !EndsTask(db, op, id, worker)
    ensures TaskHeld(Apply(db, op), id, worker) ==> var t := Apply(db, op).tasks[id];
      t.leaseUntil == db.tasks[id].leaseUntil || (t.leaseUntil.Some? && RenewsTask(op, id, worker, t.leaseUntil.value))
  {
    hide OwnEffect, WorkEffect, OwnEnabled, Inv;
    match op
    case Own(o) =>
      if OwnEnabled(db, o) {
        OwnKeepsInv(db, o);
        assert TaskKept(db.tasks[id], OwnEffect(db, o).tasks[id]);
      }
    case Work(w) =>
      if WorkEnabled(db, w) {
        WorkOnLeased(db, w, id, worker);
      }
    case _ =>
  }

  /** From a claim until its worker finishes the task, or a recovery after its deadline, a task
      stays leased to that worker, and no claim accepts it again. */
  lemma {:induction false} TaskRowHolds(db: Db, ops: seq<Op>, i: nat, k: nat, id: nat, worker: string)
    requires Inv(db) && i <= k <= |ops| && TaskHeld(At(db, ops, i), id, worker)
    requires forall m :: i <= m < k ==> !EndsTask(At(db, ops, m), ops[m], id, worker)
    ensures TaskHeld(At(db, ops, k), id, worker)
    ensures forall p: Pick :: p.id == id ==> !Accepted(At(db, ops, k), p)
  {
    hide Apply, EndsTask, Inv;
    if i < k {
      TaskRowHolds(db, ops, i, k - 1, id, worker);
      RunKeepsInv(db, ops, k - 1);
      TaskLostExactlyBy(At(db, ops, k - 1), ops[k - 1], id, worker);
    }
  }
}
