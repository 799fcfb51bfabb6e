/** What one batch of task claims does, and exactly when it goes through. */
module BatchClaim {
  import opened Common
  import opened MaintenanceModel
  import opened MaintenanceWork

  predicate AcceptedOn(db: Db, p: Pick, n: Name) {
    Accepted(db, p) && db.tasks[p.id].table == n
  }

  /** Some selected task is to be leased on this table. */
  ghost predicate Takes(db: Db, picks: seq<Pick>, n: Name) {
    exists k :: 0 <= k < |picks| && AcceptedOn(db, picks[k], n)
  }

  /** Every selected row still exists, accepted tasks are on distinct tables, and each of those is idle. */
  ghost predicate Admits(db: Db, picks: seq<Pick>) {
    && (forall k :: 0 <= k < |picks| ==> Present(db, picks[k]))
    && (forall k :: 0 <= k < |picks| && Accepted(db, picks[k]) ==> Idle(db.states[db.tasks[picks[k].id].table], db.now))
    && (forall i, j :: 0 <= i < j < |picks| && Accepted(db, picks[i]) && Accepted(db, picks[j]) ==>
          db.tasks[picks[i].id].table != db.tasks[picks[j].id].table)
  }

  /** A selected task is leased if ownership still stands, cancelled if it moved, and left
      alone if it is no longer waiting. */
  function Outcome(db: Db, p: Pick, worker: string, until: Instant): (t: Task)
    requires Present(db, p)
  {
    var t := db.tasks[p.id];
    if !Pending(t) then t else if Rejected(db, p) then Cancel(t) else LeasedTask(t, worker, until)
  }

  /** The whole effect of a batch, read off the state before it. */
  ghost predicate Claimed(db: Db, r: Db, worker: string, until: Instant, picks: seq<Pick>) {
    && r == db.(states := r.states, tasks := r.tasks)
    && r.states.Keys == db.states.Keys && r.tasks.Keys == db.tasks.Keys
    && (forall n :: n in db.states ==> r.states[n] == if Takes(db, picks, n) then LeasedState(db.states[n], worker, until) else db.states[n])
    && (forall k :: 0 <= k < |picks| ==> Present(db, picks[k]) && r.tasks[picks[k].id] == Outcome(db, picks[k], worker, until))
    && (forall id :: id in db.tasks && (forall k :: 0 <= k < |picks| ==> picks[k].id != id) ==> r.tasks[id] == db.tasks[id])
  }

  lemma TakesOne(db: Db, picks: seq<Pick>, p: Pick, n: Name)
    ensures Takes(db, picks + [p], n) <==> Takes(db, picks, n) || AcceptedOn(db, p, n)
  {
    var all := picks + [p];
    if Takes(db, picks, n) {
      var k :| 0 <= k < |picks| && AcceptedOn(db, picks[k], n);
      assert AcceptedOn(db, all[k], n);
    }
    if AcceptedOn(db, p, n) {
      assert AcceptedOn(db, all[|picks|], n);
    }
  }

  /** Earlier turns change nothing a later turn tests, except that leased tables are busy. */
  lemma LaterTurn(db: Db, d: Db, worker: string, until: Instant, picks: seq<Pick>, p: Pick)
    requires Claimed(db, d, worker, until, picks) && db.now <= until
    requires forall k :: 0 <= k < |picks| ==> picks[k].id != p.id
    ensures Present(d, p) <==> Present(db, p)
    ensures Present(db, p) ==> d.tasks[p.id] == db.tasks[p.id] && (Rejected(d, p) <==> Rejected(db, p))
    ensures Present(db, p) ==> (Idle(d.states[db.tasks[p.id].table], d.now) <==>
      Idle(db.states[db.tasks[p.id].table], db.now) && !Takes(db, picks, db.tasks[p.id].table))
  {
  }

  /** What a turn writes, given that it went through. */
  lemma Turn(db: Db, worker: string, until: Instant, p: Pick)
    requires ClaimOne(db, worker, until, p).Ok?
    ensures Present(db, p)
    ensures var r, t := ClaimOne(db, worker, until, p).value, db.tasks[p.id];
      && r == db.(states := r.states, tasks := db.tasks[p.id := Outcome(db, p, worker, until)])
      && r.states == if Accepted(db, p) then db.states[t.table := LeasedState(db.states[t.table], worker, until)] else db.states
  {
  }

  lemma StatesAfterTurn(db: Db, d: Db, r: Db, worker: string, until: Instant, picks: seq<Pick>, p: Pick)
    requires Claimed(db, d, worker, until, picks) && Present(db, p)
    requires r.states == if Accepted(db, p) then d.states[db.tasks[p.id].table := LeasedState(d.states[db.tasks[p.id].table], worker, until)] else d.states
    ensures r.states.Keys == db.states.Keys
    ensures forall n :: n in db.states ==>
      r.states[n] == if Takes(db, picks + [p], n) then LeasedState(db.states[n], worker, until) else db.states[n]
  {
    forall n | n in db.states
      ensures r.states[n] == if Takes(db, picks + [p], n) then LeasedState(db.states[n], worker, until) else db.states[n]
    {
      TakesOne(db, picks, p, n);
    }
  }

  lemma TasksAfterTurn(db: Db, d: Db, r: Db, worker: string, until: Instant, picks: seq<Pick>, p: Pick)
    requires Claimed(db, d, worker, until, picks) && Present(db, p)
    requires forall k :: 0 <= k < |picks| ==> picks[k].id != p.id
    requires r.tasks == d.tasks[p.id := Outcome(db, p, worker, until)]
    ensures var all := picks + [p];
      && r.tasks.Keys == db.tasks.Keys
      && (forall k :: 0 <= k < |all| ==> Present(db, all[k]) && r.tasks[all[k].id] == Outcome(db, all[k], worker, until))
      && (forall id :: id in db.tasks && (forall k :: 0 <= k < |all| ==> all[k].id != id) ==> r.tasks[id] == db.tasks[id])
  {
    var all := picks + [p];
    forall k | 0 <= k < |all| ensures Present(db, all[k]) && r.tasks[all[k].id] == Outcome(db, all[k], worker, until) {
      assert k < |picks| ==> all[k] == picks[k];
    }
    forall id | id in db.tasks && (forall k :: 0 <= k < |all| ==> all[k].id != id) ensures r.tasks[id] == db.tasks[id] {
      assert all[|picks|].id != id;
      forall k | 0 <= k < |picks| ensures picks[k].id != id {
        assert all[k].id != id;
      }
    }
  }

  lemma OneMoreTurn(db: Db, d: Db, r: Db, worker: string, until: Instant, picks: seq<Pick>, p: Pick)
    requires Claimed(db, d, worker, until, picks) && db.now <= until
    requires forall k :: 0 <= k < |picks| ==> picks[k].id != p.id
    requires ClaimOne(d, worker, until, p) == Ok(r)
    ensures Claimed(db, r, worker, until, picks + [p])
  {
    LaterTurn(db, d, worker, until, picks, p);
    Turn(d, worker, until, p);
    StatesAfterTurn(db, d, r, worker, until, picks, p);
    TasksAfterTurn(db, d, r, worker, until, picks, p);
  }

  /** When a later turn goes through, in terms of the state before the batch. */
  lemma NextTurn(db: Db, d: Db, worker: string, until: Instant, picks: seq<Pick>, p: Pick)
    requires Claimed(db, d, worker, until, picks) && db.now <= until
    requires forall k :: 0 <= k < |picks| ==> picks[k].id != p.id
    ensures ClaimOne(d, worker, until, p).Ok? <==>
      Present(db, p) && (Accepted(db, p) ==> Idle(db.states[db.tasks[p.id].table], db.now) && !Takes(db, picks, db.tasks[p.id].table))
    ensures ClaimOne(d, worker, until, p).Ok? ==> Claimed(db, ClaimOne(d, worker, until, p).value, worker, until, picks + [p])
  {
    LaterTurn(db, d, worker, until, picks, p);
    var r := ClaimOne(d, worker, until, p);
    if r.Ok? {
      OneMoreTurn(db, d, r.value, worker, until, picks, p);
    }
  }

  lemma AdmitsOne(db: Db, picks: seq<Pick>, p: Pick)
    ensures Admits(db, picks + [p]) <==>
      Admits(db, picks) && Present(db, p) &&
      (Accepted(db, p) ==> Idle(db.states[db.tasks[p.id].table], db.now) && !Takes(db, picks, db.tasks[p.id].table))
  {
    var all := picks + [p];
    assert all[|picks|] == p && forall k :: 0 <= k < |picks| ==> all[k] == picks[k];
  }

  ghost predicate Settled(db: Db, r: Result<Db>, worker: string, until: Instant, picks: seq<Pick>) {
    (r.Ok? <==> Admits(db, picks)) && (r.Ok? ==> Claimed(db, r.value, worker, until, picks))
  }

  lemma SettledTurn(db: Db, r: Result<Db>, worker: string, until: Instant, picks: seq<Pick>, p: Pick)
    requires Settled(db, r, worker, until, picks) && db.now <= until
    requires forall k :: 0 <= k < |picks| ==> picks[k].id != p.id
    ensures Settled(db, if r.Err? then r else ClaimOne(r.value, worker, until, p), worker, until, picks + [p])
  {
    AdmitsOne(db, picks, p);
    if r.Ok? {
      NextTurn(db, r.value, worker, until, picks, p);
    }
  }

  /** A batch goes through exactly when it is admitted, and then leases every selected task
      whose ownership stands, cancels exactly the waiting ones whose ownership moved, and
      changes nothing else; otherwise it changes nothing at all. */
  lemma {:induction false} BatchIsAllOrNothing(db: Db, worker: string, until: Instant, picks: seq<Pick>)
    requires DistinctIds(picks) && db.now <= until
    ensures var r := ClaimBatch(db, worker, until, picks);
      (r.Ok? <==> Admits(db, picks)) && (r.Ok? ==> Claimed(db, r.value, worker, until, picks))
  {
    if picks != [] {
      var before, p := picks[..|picks| - 1], picks[|picks| - 1];
      assert picks == before + [p];
      BatchIsAllOrNothing(db, worker, until, before);
      SettledTurn(db, ClaimBatch(db, worker, until, before), worker, until, before, p);
    }
  }

  /** Every task a batch leases has its table's owner, its table is leased with it, and no
      other job's reservation comes first on that table. */
  lemma LeasedTasksAreOwned(db: Db, worker: string, until: Instant, picks: seq<Pick>, k: nat)
    requires DistinctIds(picks) && db.now <= until && k < |picks|
    requires Admits(db, picks) && Accepted(db, picks[k])
    ensures var o := ClaimBatch(db, worker, until, picks);
      && o.Ok? && picks[k].id in o.value.tasks
      && var t := o.value.tasks[picks[k].id];
      && t.status == Leased && t.leaseOwner == Some(worker) && t.leaseUntil == Some(until)
      && t.table in o.value.states && o.value.states[t.table].owner == t.owner
      && o.value.states[t.table].leaseOwner == Some(worker) && o.value.states[t.table].leaseUntil == Some(until)
      && var w := Winner(o.value.reservations, t.table);
         (w.None? && !IsReserved(o.value.reservations, t.table)) || (w.Some? && t.owner == Job(w.value.owner))
  {
    BatchIsAllOrNothing(db, worker, until, picks);
    WinnerIsPreferred(db.reservations, db.tasks[picks[k].id].table);
    assert AcceptedOn(db, picks[k], db.tasks[picks[k].id].table);
  }

  // ---- Which tasks are leased ----

  /** No reservation stands between the table and this owner: none is active on it, or the first
      is the owner's own. */
  ghost predicate Unopposed(rs: seq<Reservation>, n: Name, o: Owner) {
    forall k :: ComesFirst(rs, n, k) ==> o == Job(rs[k].owner)
  }

  /** The task still belongs to the owner it was picked for, and the table with it. */
  ghost predicate StillOwned(db: Db, p: Pick)
    requires Present(db, p)
  {
    var t := db.tasks[p.id];
    t.owner == p.owner && db.states[t.table].owner == p.owner && Unopposed(db.reservations, t.table, p.owner)
  }

  lemma RejectedWhen(db: Db, p: Pick)
    requires Present(db, p)
    ensures Rejected(db, p) <==> !StillOwned(db, p)
  {
    WinnerComesFirst(db.reservations, db.tasks[p.id].table);
  }

  /** In a batch that goes through, a waiting task is leased to the worker, with one attempt more and
      its table under the same lease, if and only if task and table still belong to the owner it
      was picked for and no other reservation comes first on the table; and it is cancelled if and
      only if one of those fails. Any other task is left alone. */
  lemma LeasedExactlyWhen(db: Db, worker: string, until: Instant, picks: seq<Pick>, k: nat)
    requires DistinctIds(picks) && db.now <= until && k < |picks| && ClaimBatch(db, worker, until, picks).Ok?
    ensures Present(db, picks[k]) && picks[k].id in ClaimBatch(db, worker, until, picks).value.tasks
    ensures var r, t := ClaimBatch(db, worker, until, picks).value, db.tasks[picks[k].id];
      var u := r.tasks[picks[k].id];
      if t.status in {Queued, Retry} then
        && (u == Task(t.table, t.owner, t.operation, t.window, Leased, Some(worker), Some(until), t.notBefore, t.attempts + 1)
            <==> StillOwned(db, picks[k]))
        && (u == t.(status := Cancelled, leaseOwner := None, leaseUntil := None) <==> !StillOwned(db, picks[k]))
        && (StillOwned(db, picks[k]) ==>
            t.table in r.states && r.states[t.table] == db.states[t.table].(leaseOwner := Some(worker), leaseUntil := Some(until)))
      else u == t
  {
    hide StillOwned;
    BatchIsAllOrNothing(db, worker, until, picks);
    RejectedWhen(db, picks[k]);
    assert Accepted(db, picks[k]) ==> AcceptedOn(db, picks[k], db.tasks[picks[k].id].table);
  }

  /** The claim goes through exactly when every picked row is there, and the tables of the tasks it
      leases are distinct and under no lease of either kind. */
  lemma ClaimSucceedsWhen(db: Db, worker: string, until: Instant, picks: seq<Pick>)
    requires DistinctIds(picks) && db.now <= until
    ensures ClaimBatch(db, worker, until, picks).Ok? <==>
      && (forall k :: 0 <= k < |picks| ==> picks[k].id in db.tasks && db.tasks[picks[k].id].table in db.states)
      && (forall k :: 0 <= k < |picks| && Leases(db, picks[k]) ==> var s := db.states[db.tasks[picks[k].id].table];
            (s.leaseUntil.Some? ==> s.leaseUntil.value < db.now) && (s.invUntil.Some? ==> s.invUntil.value < db.now))
      && (forall i, j :: 0 <= i < j < |picks| && Leases(db, picks[i]) && Leases(db, picks[j]) ==>
            db.tasks[picks[i].id].table != db.tasks[picks[j].id].table)
  {
    BatchIsAllOrNothing(db, worker, until, picks);
    forall k | 0 <= k < |picks| && Present(db, picks[k]) ensures Leases(db, picks[k]) <==> Accepted(db, picks[k]) {
      RejectedWhen(db, picks[k]);
    }
  }

  ghost predicate Leases(db: Db, p: Pick)
    requires Present(db, p)
  {
    db.tasks[p.id].status in {Queued, Retry} && StillOwned(db, p)
  }
}
