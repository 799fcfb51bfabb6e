/** The store methods over the job and checkpoint tables, statement by statement. A method
    body runs once its row locks are granted, so no other transaction is open in its view;
    each method is shown to be the matching step, or run of steps, of the worker protocol. */
module JobDatabase {
  import opened Common
  import opened JobRegistry
  import opened Checkpoints
  import opened Rebuild
  import opened ScopedRebuild
  import opened WorkerProtocol
  import CheckpointHistory

  const DEFAULT_CLAIM_LIMIT := 100
  const DEFAULT_LEASE := 30_000_000

  /** The claims a batch makes, in its order. */
  function ClaimOps(ids: seq<string>, role: Role, owner: string, until: Instant, uuids: seq<string>): (ops: seq<Op>)
    requires |ids| <= |uuids|
    ensures |ops| == |ids|
  {
    seq(|ids|, n requires 0 <= n < |ids| => Claim(ids[n], role, owner, until, uuids[n]))
  }

  predicate Distinct<T(==)>(s: seq<T>) {
    forall i, j :: 0 <= i < j < |s| ==> s[i] != s[j]
  }

  /** The claimable rows, in update order. */
  function ClaimableRows(jobs: map<string, JobRow>, role: Role, now: Instant, order: seq<string>): (ids: seq<string>) {
    if order == [] then []
    else
      var before, id := ClaimableRows(jobs, role, now, order[..|order| - 1]), order[|order| - 1];
      if id in jobs && Claimable(jobs[id], role, now) then before + [id] else before
  }

  /** The claimable rows of the order, each at its place, and all of them. */
  lemma {:induction false} ClaimableRowsAre(jobs: map<string, JobRow>, role: Role, now: Instant, order: seq<string>) returns (at: seq<nat>)
    ensures var ids := ClaimableRows(jobs, role, now, order);
      && |at| == |ids| && (forall i, j :: 0 <= i < j < |at| ==> at[i] < at[j])
      && (forall i :: 0 <= i < |at| ==> at[i] < |order| && order[at[i]] == ids[i])
    ensures forall k: nat :: k in at <==> k < |order| && order[k] in jobs && MayClaim(jobs[order[k]], role, now)
  {
    at := [];
    if order != [] {
      var n := |order| - 1;
      var before := ClaimableRowsAre(jobs, role, now, order[..n]);
      forall k: nat ensures k in before <==> k < n && order[k] in jobs && MayClaim(jobs[order[k]], role, now) {
        assert k < n ==> order[..n][k] == order[k];
      }
      at := before;
      if order[n] in jobs && Claimable(jobs[order[n]], role, now) {
        at := before + [n];
        assert forall k: nat :: k in at <==> k in before || k == n;
      }
    }
  }

  /** A row to be run in this role, without a lease or with one that has run out. */
  predicate MayClaim(row: JobRow, role: Role, now: Instant) {
    row.role == role && row.desired == DesiredRunning && (row.until.Some? ==> row.until.value < now)
  }

  function FirstOf(ids: seq<string>, max: nat): (r: seq<string>) {
    if |ids| <= max then ids else ids[..max]
  }

  /** The rows a worker holds under a live lease and is to run. */
  predicate Working(row: JobRow, owner: string, role: Role, now: Instant) {
    row.owner == Some(owner) && Unexpired(row, now) && row.role == role && row.desired == DesiredRunning
  }

  /** A fenced write that goes through, seen as its begin, its duration and its commit. */
  lemma ThreeSteps(w: World, token: Token, m: Mutation, duration: nat)
    requires w.txs == map[] && MayFence(token, m) && token.submission != "" && token.owner != "" && token.stateKey != ""
    requires Owns(w.jobs, token, w.now) && Owns(w.jobs, token, w.now + duration) && Mutate(w.tables, m).Ok?
    ensures At(w, [Begin(0, token, m), Tick(duration), Commit(0)], 3) == w.(now := w.now + duration, tables := After(w.tables, m))
  {
    hide Mutate;
    var ops, tx := [Begin(0, token, m), Tick(duration), Commit(0)], Tx(token, m, w.now);
    assert At(w, ops, 1) == w.(txs := map[0 := tx]);
    assert At(w, ops, 2) == w.(now := w.now + duration, txs := map[0 := tx]);
    assert map[0 := tx] - {0} == map[];
  }

  class Database {
    var now: Instant
    var jobs: map<string, JobRow>
    var offsets: map<string, Offset>
    var snapshots: map<string, Snapshot>
    var progress: map<string, Progress>
    var intents: map<string, Intent>
    var archives: map<string, ArchiveRow>
    var issued: set<string>

    function Checkpoint(): (t: Tables)
      reads this
    {
      Tables(offsets, snapshots, progress, intents)
    }

    function View(): (w: World)
      reads this
    {
      World(now, jobs, Checkpoint(), archives, issued, map[])
    }

    // ---- Registry statements ----

    predicate Claims(id: string, role: Role)
      reads this
    {
      id in jobs && Claimable(jobs[id], role, now)
    }

    /** The candidate query: the first `max` claimable rows in update order. */
    method SelectClaimable(role: Role, max: nat, order: seq<string>) returns (ids: seq<string>)
      requires Distinct(order)
      ensures ids == FirstOf(ClaimableRows(jobs, role, now, order), max)
      ensures Distinct(ids) && |ids| <= |order| && forall id :: id in ids ==> id in order && Claims(id, role)
    {
      ids := [];
      for i := 0 to |order|
        invariant ids == FirstOf(ClaimableRows(jobs, role, now, order[..i]), max)
        invariant Distinct(ids) && |ids| <= i && forall id :: id in ids ==> id in order[..i] && Claims(id, role)
      {
        assert order[..i + 1] == order[..i] + [order[i]] && order[..i + 1][..i] == order[..i];
        if |ids| < max && Claims(order[i], role) {
          ids := ids + [order[i]];
        }
      }
      assert order[..|order|] == order;
    }

    /** Lease the candidates one by one, each under the same guard, as one transaction. */
    method LeaseAll(ids: seq<string>, role: Role, owner: string, until: Instant, uuids: seq<string>)
      requires Distinct(ids) && |ids| <= |uuids| && Distinct(uuids)
      requires role != RoleAll && owner != ""
      requires forall id :: id in ids ==> Claims(id, role)
      requires forall n :: 0 <= n < |uuids| ==> uuids[n] !in issued
      modifies this`jobs, this`issued
      ensures View() == At(old(View()), ClaimOps(ids, role, owner, until, uuids), |ids|)
    {
      ghost var ops := ClaimOps(ids, role, owner, until, uuids);
      for i := 0 to |ids|
        invariant View() == At(old(View()), ops, i)
        invariant forall n :: i <= n < |ids| ==> Claims(ids[n], role)
        invariant forall n :: i <= n < |uuids| ==> uuids[n] !in issued
      {
        ghost var before := View();
        if ids[i] in jobs && Claimable(jobs[ids[i]], role, now) {
          jobs := jobs[ids[i] := Claimed(jobs[ids[i]], owner, until, uuids[i])];
          issued := issued + {uuids[i]};
        }
        assert View() == Apply(before, ops[i]);
      }
    }

    /** The last query: every row the worker holds by then, not only those just leased. */
    method LoadWorking(owner: string, role: Role) returns (held: set<string>)
      ensures forall id :: id in held <==> id in jobs && Working(jobs[id], owner, role, now)
    {
      held := {};
      var rest := jobs.Keys;
      while rest != {}
        invariant rest <= jobs.Keys
        invariant forall id :: id in held <==> id in jobs.Keys - rest && Working(jobs[id], owner, role, now)
        decreases rest
      {
        var id :| id in rest;
        if Working(jobs[id], owner, role, now) {
          held := held + {id};
        }
        rest := rest - {id};
      }
    }

    /** Leases the first claimable rows in update order, and returns every row the worker then holds. */
    method ClaimJobs(role: Role, owner: string, limit: int, lease: int, clientNow: Instant, order: seq<string>, uuids: seq<string>)
      returns (ghost ids: seq<string>, held: set<string>)
      requires Distinct(order) && |order| <= |uuids| && Distinct(uuids)
      requires forall n :: 0 <= n < |uuids| ==> uuids[n] !in issued
      modifies this`jobs, this`issued
      ensures ids == if role == RoleAll || owner == "" then []
                     else FirstOf(ClaimableRows(old(jobs), role, now, order), if limit <= 0 then DEFAULT_CLAIM_LIMIT else limit)
      ensures |ids| <= |uuids|
      ensures var until := clientNow + (if lease <= 0 then DEFAULT_LEASE else lease);
        View() == At(old(View()), ClaimOps(ids, role, owner, until, uuids), |ids|)
      ensures forall id :: id in held <==> ids != [] && id in jobs && var row := jobs[id];
        row.owner == Some(owner) && row.until.Some? && now <= row.until.value && row.role == role && row.desired == DesiredRunning
    {
      ids, held := [], {};
      if role == RoleAll || owner == "" {
        return;
      }
      var selected := SelectClaimable(role, if limit <= 0 then DEFAULT_CLAIM_LIMIT else limit, order);
      ids := selected;
      if |selected| == 0 {
        return;
      }
      LeaseAll(selected, role, owner, clientNow + (if lease <= 0 then DEFAULT_LEASE else lease), uuids);
      held := LoadWorking(owner, role);
    }

    method RenewJobLease(job: string, submission: string, owner: string, lease: int, clientNow: Instant) returns (ok: bool)
      modifies this`jobs
      ensures var op := Renew(job, submission, owner, clientNow + (if lease <= 0 then DEFAULT_LEASE else lease));
        ok == Enabled(old(View()), op) && View() == Apply(old(View()), op)
    {
      ok := job in jobs && Renewable(jobs[job], submission, owner);
      if ok {
        jobs := jobs[job := jobs[job].(until := Some(clientNow + if lease <= 0 then DEFAULT_LEASE else lease))];
      }
    }

    method ReleaseJobLease(job: string, submission: string, owner: string)
      modifies this`jobs
      ensures View() == Apply(old(View()), Release(job, submission, owner))
    {
      if job in jobs && Holds(jobs[job], submission, owner) {
        jobs := jobs[job := Unleased(jobs[job])];
      }
    }

    method SaveClaimedJob(job: string, submission: string, owner: string, metaKey: string, desired: Desired, role: Role, status: Status)
      returns (ok: bool)
      modifies this`jobs
      ensures var op := SaveClaimed(job, submission, owner, metaKey, desired, role, status);
        ok == Enabled(old(View()), op) && View() == Apply(old(View()), op)
    {
      ok := submission != "" && owner != "" && job in jobs && Holds(jobs[job], submission, owner) && Unexpired(jobs[job], now);
      if ok {
        jobs := jobs[job := Saved(jobs[job], metaKey, desired, role, status)];
      }
    }

    method RequestJobStop(job: string) returns (ok: bool)
      modifies this`jobs
      ensures ok == Enabled(old(View()), Stop(job)) && View() == Apply(old(View()), Stop(job))
    {
      ok := job in jobs;
      if ok {
        jobs := jobs[job := jobs[job].(desired := DesiredStopped, status := Stopped, owner := None, until := None)];
      }
    }

    method RequestJobPause(job: string) returns (ok: bool)
      modifies this`jobs
      ensures ok == Enabled(old(View()), Pause(job)) && View() == Apply(old(View()), Pause(job))
    {
      ok := job in jobs && jobs[job].desired == DesiredRunning && jobs[job].status == Running;
      if ok {
        jobs := jobs[job := jobs[job].(status := Pausing)];
      }
    }

    method RequestJobResume(job: string, role: Role) returns (ok: bool)
      modifies this`jobs
      ensures ok == Enabled(old(View()), Resume(job, role)) && View() == Apply(old(View()), Resume(job, role))
    {
      ok := role != RoleAll && job in jobs && TerminalStatus(jobs[job].status);
      if ok {
        jobs := jobs[job := Requeued(jobs[job], role, true)];
      }
    }

    method RequestJobFreshSnapshot(job: string) returns (ok: bool)
      modifies this`jobs
      ensures ok == Enabled(old(View()), FreshSnapshot(job)) && View() == Apply(old(View()), FreshSnapshot(job))
    {
      ok := job in jobs && TerminalStatus(jobs[job].status);
      if ok {
        jobs := jobs[job := Requeued(jobs[job], RoleSnapshot, false)];
      }
    }

    /** The pause requests this worker must answer: exactly the rows it could still write under. */
    method LoadJobPauseRequests(owner: string) returns (ids: set<string>)
      ensures forall id :: id in ids <==> (
        && id in jobs && jobs[id].desired == DesiredRunning && jobs[id].status == Pausing
        && Owns(jobs, Token(id, jobs[id].submission, owner, ""), now))
    {
      ids := {};
      var rest := jobs.Keys;
      while rest != {}
        invariant rest <= jobs.Keys
        invariant forall id :: id in ids <==> (
          && id in jobs.Keys - rest && jobs[id].owner == Some(owner)
          && Unexpired(jobs[id], now) && jobs[id].desired == DesiredRunning && jobs[id].status == Pausing)
        decreases rest
      {
        var id :| id in rest;
        if jobs[id].owner == Some(owner) && Unexpired(jobs[id], now) && jobs[id].desired == DesiredRunning && jobs[id].status == Pausing {
          ids := ids + {id};
        }
        rest := rest - {id};
      }
    }

    // ---- Checkpoint statements ----

    method Install(t: Tables)
      modifies this`offsets, this`snapshots, this`progress, this`intents
      ensures Checkpoint() == t
    {
      offsets, snapshots, progress, intents := t.offsets, t.snapshots, t.progress, t.intents;
    }

    /** One guarded update; when it changes no row, an already confirmed row still succeeds. */
    method MarkSnapshotDone(key: string) returns (ok: bool)
      modifies this`snapshots
      ensures ok == Mutate(old(Checkpoint()), MarkDone(key)).Ok?
      ensures Checkpoint() == After(old(Checkpoint()), MarkDone(key))
    {
      var count := 0;
      if key in snapshots && !snapshots[key].done && Settled(Checkpoint(), key) {
        snapshots := snapshots[key := snapshots[key].(done := true, version := 1)];
        count := 1;
      }
      if count == 1 {
        return true;
      }
      ok := key in snapshots && snapshots[key].done && snapshots[key].version == 1;
    }

    method SaveSnapshotStart(key: string, start: Offset)
      modifies this`snapshots
      ensures Checkpoint() == After(old(Checkpoint()), SaveStart(key, start))
    {
      if key in snapshots {
        snapshots := snapshots[key := snapshots[key].(start := start, done := false, version := 0)];
      } else {
        snapshots := snapshots[key := Snapshot(start, false, 0)];
      }
    }

    method BeginIcebergCommit(id: string, intent: Intent) returns (ok: bool)
      modifies this`intents
      ensures ok == (id !in old(intents))
      ensures intents == if ok then old(intents)[id := CheckpointHistory.Recorded(intent)] else old(intents)
      ensures ok == Mutate(old(Checkpoint()), BeginCommit(id, intent)).Ok?
      ensures Checkpoint() == After(old(Checkpoint()), BeginCommit(id, intent))
    {
      ok := id !in intents;
      if ok {
        intents := intents[id := intent.(outcome := Prepared, trinoQuery := "")];
      }
    }

    method MarkIcebergCommitCommitted(key: string, id: string) returns (ok: bool)
      modifies this`intents
      ensures ok == Mutate(old(Checkpoint()), MarkCommitted(key, id)).Ok?
      ensures Checkpoint() == After(old(Checkpoint()), MarkCommitted(key, id))
    {
      var count := 0;
      if id in intents && intents[id].stateKey == key && intents[id].outcome == Prepared {
        intents := intents[id := intents[id].(outcome := Committed)];
        count := 1;
      }
      ok := count == 1;
    }

    /** A guarded update, then a read-back that verifies which identity is stored. */
    method RecordIcebergTrinoQuery(key: string, id: string, query: string) returns (ok: bool)
      modifies this`intents
      ensures ok == Mutate(old(Checkpoint()), RecordQuery(key, id, query)).Ok?
      ensures Checkpoint() == After(old(Checkpoint()), RecordQuery(key, id, query))
    {
      if query == "" {
        return false;
      }
      if QueryRow(Checkpoint(), key, id) && (intents[id].trinoQuery == "" || intents[id].trinoQuery == query) {
        intents := intents[id := intents[id].(trinoQuery := query)];
      }
      if !QueryRow(Checkpoint(), key, id) {
        return false;
      }
      ok := intents[id].trinoQuery == query;
    }

    /** The sink's barrier: refuse on any unresolved receipt under the key, then mark. Success
        means every receipt was COMMITTED and the snapshot is confirmed. */
    method ConfirmSnapshotCompletion(key: string) returns (ok: bool)
      modifies this`snapshots
      ensures ok ==> Settled(old(Checkpoint()), key) && Confirmed(Checkpoint(), key)
      ensures ok <==> Settled(old(Checkpoint()), key) && Mutate(old(Checkpoint()), MarkDone(key)).Ok?
      ensures Checkpoint() == if ok then After(old(Checkpoint()), MarkDone(key)) else old(Checkpoint())
    {
      var pending := set id | id in intents && intents[id].stateKey == key;
      while pending != {}
        invariant pending <= intents.Keys
        invariant forall id :: id in intents && intents[id].stateKey == key && id !in pending ==> intents[id].outcome == Committed
        decreases pending
      {
        var id :| id in pending;
        if intents[id].outcome != Committed {
          return false;
        }
        pending := pending - {id};
      }
      ok := MarkSnapshotDone(key);
    }

    /** Unfenced progress saving: the upsert, and then, unless the process stops here, the prune. */
    method SaveSnapshotProgress(key: string, table: string, next: int, cursor: string, crash: bool)
      modifies this`progress, this`intents
      ensures var first := Apply(old(View()), Unfenced(UpsertProgress(key, table, next, cursor)));
        View() == if crash then first else Apply(first, Unfenced(PruneCovered(key, table, next)))
    {
      progress := progress[key := Progress(table, next, cursor)];
      if crash {
        return;
      }
      intents := map id | id in intents && !Prunable(intents[id], key, table, next) :: intents[id];
    }

    method DeleteJobState(key: string) returns (ok: bool)
      modifies this`offsets, this`snapshots, this`progress
      ensures ok == Mutate(old(Checkpoint()), DeleteState(key)).Ok?
      ensures Checkpoint() == After(old(Checkpoint()), DeleteState(key))
    {
      ok := !Retains(Checkpoint(), key);
      if ok {
        snapshots := snapshots - {key};
        progress := progress - {key};
        offsets := offsets - {key};
      }
    }

    /** A fenced write: lock and check, change the tables in place, and check again after the
        statements' own duration; a failed call or a lost lease rolls the tables back. */
    method Write(token: Token, m: Mutation, duration: nat) returns (ok: bool)
      requires token.submission != "" && token.owner != "" && token.stateKey != ""
      requires !m.UpsertProgress? && !m.PruneCovered?
      modifies this
      ensures ok <==> (
        && MayFence(token, m)
        && Owns(old(jobs), token, old(now)) && Owns(old(jobs), token, old(now) + duration)
        && Mutate(old(Checkpoint()), m).Ok?)
      ensures now == old(now) || now == old(now) + duration
      ensures ok ==> View() == At(old(View()), [Begin(0, token, m), Tick(duration), Commit(0)], 3)
      ensures !ok ==> View() == old(View()).(now := now)
    {
      if !MayFence(token, m) || !Owns(jobs, token, now) {
        return false;
      }
      ghost var before := View();
      var saved := Checkpoint();
      var outcome := Mutate(saved, m);
      if outcome.Err? {
        return false;
      }
      Install(outcome.value);
      now := now + duration;
      if !Owns(jobs, token, now) {
        Install(saved);
        return false;
      }
      ok := true;
      ThreeSteps(before, token, m, duration);
    }

    // ---- Recovery ----

    method CheckScopedRebuildIntents(token: Token, allowPrepared: bool, native: bool) returns (ok: bool)
      ensures ok <==> (
        && token.submission != "" && Owns(jobs, token, now)
        && StartAdmission(Checkpoint(), token.job, token.stateKey, token.submission, allowPrepared, native))
    {
      if token.submission == "" || !Owns(jobs, token, now) {
        return false;
      }
      var rest := set id | id in intents && Listed(Checkpoint(), id, token.stateKey, token.job);
      while rest != {}
        invariant rest <= intents.Keys
        invariant forall id :: id in intents && Listed(Checkpoint(), id, token.stateKey, token.job) && id !in rest ==>
          StartAdmits(intents[id], token.job, token.stateKey, token.submission, allowPrepared, native)
        invariant forall id :: id in rest ==> Listed(Checkpoint(), id, token.stateKey, token.job)
        decreases rest
      {
        var id :| id in rest;
        if !StartAdmits(intents[id], token.job, token.stateKey, token.submission, allowPrepared, native) {
          return false;
        }
        rest := rest - {id};
      }
      ok := Owns(jobs, token, now);
    }

    method CheckScopedRebuildEmptyCheckpoint(token: Token) returns (ok: bool)
      ensures ok <==> EmptyCheckpoint(Checkpoint(), token.job, token.stateKey) && Owns(jobs, token, now)
    {
      var keys := Keys(token.stateKey, token.job);
      for i := 0 to |keys|
        invariant forall n :: 0 <= n < i ==> keys[n] !in offsets && keys[n] !in snapshots && keys[n] !in progress
      {
        if keys[i] in offsets || keys[i] in snapshots || keys[i] in progress {
          assert keys[i] in {token.stateKey, token.job};
          return false;
        }
      }
      assert token.stateKey == keys[0] && (token.job == token.stateKey || token.job == keys[1]);
      ok := Owns(jobs, token, now);
    }

    /** The receipt scan of a rebuild, stopping at the first unresolved or foreign receipt. */
    method ScanIntents(stateKey: string, job: string) returns (ok: bool)
      ensures ok == ScanPasses(Checkpoint(), stateKey, job)
    {
      var rest := intents.Keys;
      while rest != {}
        invariant rest <= intents.Keys
        invariant forall id :: id in intents && id !in rest && Selected(intents[id], stateKey, job) ==> Resolved(intents[id], stateKey, job)
        decreases rest
      {
        var id :| id in rest;
        if Selected(intents[id], stateKey, job) {
          if intents[id].outcome != Committed {
            return false;
          }
          if intents[id].job != job || (intents[id].stateKey != stateKey && intents[id].stateKey != job) {
            return false;
          }
        }
        rest := rest - {id};
      }
      ok := true;
    }

    method ArchiveStates(keys: seq<string>) returns (states: seq<ArchivedState>)
      ensures states == ArchiveAll(Checkpoint(), keys)
    {
      states := [];
      for i := 0 to |keys|
        invariant |states| == i && forall n :: 0 <= n < i ==> states[n] == Archive(Checkpoint(), keys[n])
      {
        states := states + [Archive(Checkpoint(), keys[i])];
      }
    }

    method DeleteStates(keys: seq<string>) returns (ok: bool)
      modifies this`offsets, this`snapshots, this`progress
      ensures ok == StatesDeleted(old(Checkpoint()), keys).Ok?
      ensures ok ==> Checkpoint() == StatesDeleted(old(Checkpoint()), keys).value
      ensures intents == old(intents)
    {
      for i := 0 to |keys|
        invariant intents == old(intents)
        invariant StatesDeleted(old(Checkpoint()), keys) == StatesDeleted(Checkpoint(), keys[i..])
      {
        ok := DeleteJobState(keys[i]);
        if !ok {
          return;
        }
        assert keys[i..][1..] == keys[i + 1..];
      }
      ok := true;
    }

    /** Delete the scanned receipts and both keys' state, or roll all of it back. */
    method ResetTables(stateKey: string, job: string) returns (ok: bool)
      requires ScanPasses(Checkpoint(), stateKey, job)
      modifies this`offsets, this`snapshots, this`progress, this`intents
      ensures ok == Reset(old(Checkpoint()), stateKey, job).Ok?
      ensures Checkpoint() == if ok then Reset(old(Checkpoint()), stateKey, job).value else old(Checkpoint())
    {
      var saved := Checkpoint();
      intents := map id | id in intents && !Selected(intents[id], stateKey, job) :: intents[id];
      assert Checkpoint() == IntentsDeleted(saved, stateKey, job);
      ok := DeleteStates(Keys(stateKey, job));
      if !ok {
        Install(saved);
      }
    }

    /** All or nothing: guard, scan, archive, delete and the new epoch share one transaction. */
    method RequestJobRebuild(job: string, submission: string, stateKey: string, archiveId: string, epoch: string) returns (ok: bool)
      requires archiveId !in issued && epoch !in issued && archiveId != epoch
      modifies this`jobs, this`offsets, this`snapshots, this`progress, this`intents, this`archives, this`issued
      ensures ok == Rebuildable(old(View()), job, submission, stateKey)
      ensures View() == if ok then Rebuilt(old(View()), job, stateKey, archiveId, epoch) else old(View())
    {
      hide Reset, StatesDeleted, ArchiveAll;
      ResetAdmission(Checkpoint(), stateKey, job);
      ok := job in jobs && Idle(jobs[job], submission, stateKey) && jobs[job].role != RoleAll && jobs[job].config.rebuildable;
      if !ok {
        return;
      }
      ok := ScanIntents(stateKey, job);
      if !ok {
        return;
      }
      var states := ArchiveStates(Keys(stateKey, job));
      ok := ResetTables(stateKey, job);
      if !ok {
        return;
      }
      var row := jobs[job];
      archives := archives[archiveId := ArchiveRow(job, submission, stateKey, "purged_binlog_snapshot_rebuild", row.config, states)];
      issued := issued + {archiveId, epoch};
      jobs := jobs[job := Requeued(row, RoleSnapshot, false).(submission := epoch, config := RebuildConfig(row.config, epoch))];
    }

    /** The receipt scan of a writer upgrade. */
    method ScanForUpgrade(job: string, submission: string, stateKey: string, mode: string) returns (ok: bool)
      ensures ok == UpgradeAdmission(Checkpoint(), job, stateKey, submission, mode)
    {
      var rest := set id | id in intents && Listed(Checkpoint(), id, stateKey, job);
      while rest != {}
        invariant rest <= intents.Keys
        invariant forall id :: id in rest ==> Listed(Checkpoint(), id, stateKey, job)
        invariant forall id :: id in intents && Listed(Checkpoint(), id, stateKey, job) && id !in rest ==>
          UpgradeAdmits(intents[id], job, stateKey, submission, mode)
        decreases rest
      {
        var id :| id in rest;
        if !UpgradeAdmits(intents[id], job, stateKey, submission, mode) {
          return false;
        }
        rest := rest - {id};
      }
      ok := true;
    }

    /** Move an idle scoped rebuild to the native writer, keeping its epoch and receipts. */
    method UpgradeJobNativeRebuild(job: string, submission: string, stateKey: string, archiveId: string) returns (ok: bool)
      requires archiveId !in issued
      modifies this`jobs, this`archives, this`issued
      ensures ok == Upgradable(old(View()), job, submission, stateKey)
      ensures View() == if ok then Upgraded(old(View()), job, stateKey, archiveId) else old(View())
    {
      ok := job in jobs && Idle(jobs[job], submission, stateKey) && jobs[job].role == RoleSnapshot
        && submission != "" && jobs[job].config.scopedEpoch == Some(submission)
        && (jobs[job].config.writeMode == SCOPED_TRINO_MODE || jobs[job].config.writeMode == SCOPED_NATIVE_MODE)
        && jobs[job].config.rebuildable
        && stateKey in snapshots && !snapshots[stateKey].done
        && snapshots[stateKey].start.file != "" && snapshots[stateKey].start.pos != 0;
      if !ok {
        return;
      }
      var row := jobs[job];
      ok := ScanForUpgrade(job, submission, stateKey, row.config.writeMode);
      if !ok || row.config.writeMode == SCOPED_NATIVE_MODE {
        return;
      }
      var state := Archive(Checkpoint(), stateKey)
        .(intents := map id | id in intents && Listed(Checkpoint(), id, stateKey, job) :: intents[id]);
      archives := archives[archiveId := ArchiveRow(job, submission, stateKey, "native_snapshot_writer_upgrade", row.config, [state])];
      issued := issued + {archiveId};
      jobs := jobs[job := row.(config := row.config.(writeMode := SCOPED_NATIVE_MODE, rolling := false))];
    }
  }
}
