/** What each ownership step does to reservations, tables, tasks and targets. */
module OwnershipHistory {
  import opened Common
  import opened MaintenanceModel
  import opened MaintenanceOwnership
  import JobRegistry

  predicate Waits(t: Task) {
    t.status in {Queued, Retry}
  }

  function Dropped(t: Task): (r: Task) {
    Task(t.table, t.owner, t.operation, t.window, Cancelled, None, None, t.notBefore, t.attempts)
  }

  /** Exactly the waiting tasks that satisfy `gone` are cancelled, and nothing else happens to a task. */
  ghost predicate Drops(before: map<nat, Task>, after: map<nat, Task>, gone: Task -> bool) {
    after.Keys == before.Keys && forall id :: id in before ==> after[id] == if Waits(before[id]) && gone(before[id]) then Dropped(before[id]) else before[id]
  }

  /** The table goes to the owner of the reservation that comes first on it, or to nobody, with neither
      schedule nor priority. */
  ghost predicate PassedOn(rs: seq<Reservation>, n: Name, s: TableState, r: TableState) {
    && r == s.(ownerType := r.ownerType, owner := r.owner, nextInventory := None, priority := 0)
    && (forall k :: ComesFirst(rs, n, k) ==>
          r.owner == Job(rs[k].owner) && r.ownerType == if rs[k].kind == Streaming then StreamingType else SnapshotType)
    && ((forall k :: !ComesFirst(rs, n, k)) ==> r.owner == Unmanaged && r.ownerType == UnmanagedType)
  }

  lemma HandedIsPassedOn(rs: seq<Reservation>, n: Name, s: TableState)
    ensures PassedOn(rs, n, s, Handed(s, Winner(rs, n)))
  {
    WinnerComesFirst(rs, n);
  }

  // ---- Reservations of a job ----

  predicate WorkedOn(s: TableState, now: Instant) {
    s.leaseUntil.Some? && now < s.leaseUntil.value
  }

  /** A sync is refused for a submission that is not the registry's, without a selector, or while
      somebody else works on a selected table. */
  lemma SyncGoesThroughWhen(db: Db, owner: string, submission: string, sels: seq<Selector>)
    ensures SyncAdmitted(db, owner, submission, sels) <==>
      && owner != "" && submission != "" && sels != [] && owner in db.jobs && db.jobs[owner].submission == submission
      && forall n :: n in db.states && WorkedOn(db.states[n], db.now) && db.states[n].owner != Job(owner) ==>
           forall k :: 0 <= k < |sels| ==> !Selects(sels[k], n)
  {
  }

  /** The job's active reservations are afterwards the synced ones. */
  predicate IsSynced(r: Reservation, owner: string, submission: string, kind: ReservationKind, sels: seq<Selector>) {
    r.owner == owner && r.submission == submission && r.kind == kind && r.active && r.selector in sels
  }

  predicate SameKey(r: Reservation, x: Reservation) {
    r.owner == x.owner && r.submission == x.submission && r.selector == x.selector
  }

  lemma {:induction false} UpsertedRows(rs: seq<Reservation>, x: Reservation)
    requires x.active
    ensures var u := Upserted(rs, x);
      && |rs| <= |u| <= |rs| + 1 && x in u
      && forall k :: 0 <= k < |u| ==> if k < |rs| then u[k] == rs[k] || (u[k] == x && SameKey(rs[k], x)) else u[k] == x
  {
    if rs != [] && !SameKey(rs[0], x) {
      UpsertedRows(rs[1..], x);
      var u, v := Upserted(rs, x), Upserted(rs[1..], x);
      assert x in v && u == [rs[0]] + v;
      forall k | 0 <= k < |u| ensures if k < |rs| then u[k] == rs[k] || (u[k] == x && SameKey(rs[k], x)) else u[k] == x {
        assert k > 0 ==> u[k] == v[k - 1];
      }
    }
  }

  /** What upserting a list of selectors does: rows keep their place, and those of the owner are as they
      were or synced; every selector has its row. */
  ghost predicate SyncedRows(rs: seq<Reservation>, u: seq<Reservation>, owner: string, submission: string, kind: ReservationKind, sels: seq<Selector>) {
    && |rs| <= |u|
    && (forall k :: 0 <= k < |u| ==>
          if k < |rs| then u[k] == rs[k] || (rs[k].owner == owner && IsSynced(u[k], owner, submission, kind, sels))
          else IsSynced(u[k], owner, submission, kind, sels))
    && (forall i :: 0 <= i < |sels| ==> Reservation(owner, submission, kind, sels[i], true) in u)
  }

  lemma {:induction false} UpsertedAllRows(rs: seq<Reservation>, owner: string, submission: string, kind: ReservationKind, sels: seq<Selector>)
    ensures SyncedRows(rs, UpsertedAll(rs, owner, submission, kind, sels), owner, submission, kind, sels)
  {
    if sels != [] {
      var n := |sels| - 1;
      var before := UpsertedAll(rs, owner, submission, kind, sels[..n]);
      var x := Reservation(owner, submission, kind, sels[n], true);
      UpsertedAllRows(rs, owner, submission, kind, sels[..n]);
      UpsertedRows(before, x);
      OneMoreRow(rs, before, Upserted(before, x), owner, submission, kind, sels, x);
    }
  }

  lemma OneMoreRow(rs: seq<Reservation>, before: seq<Reservation>, u: seq<Reservation>, owner: string, submission: string, kind: ReservationKind,
                   sels: seq<Selector>, x: Reservation)
    requires sels != [] && x == Reservation(owner, submission, kind, sels[|sels| - 1], true)
    requires SyncedRows(rs, before, owner, submission, kind, sels[..|sels| - 1])
    requires |before| <= |u| <= |before| + 1 && x in u
    requires forall k :: 0 <= k < |u| ==> if k < |before| then u[k] == before[k] || (u[k] == x && SameKey(before[k], x)) else u[k] == x
    ensures SyncedRows(rs, u, owner, submission, kind, sels)
  {
    var n := |sels| - 1;
    assert sels[n] in sels;
    forall i | 0 <= i < |sels| ensures Reservation(owner, submission, kind, sels[i], true) in u {
      if i < n {
        var y := Reservation(owner, submission, kind, sels[..n][i], true);
        var k :| 0 <= k < |before| && before[k] == y;
        assert u[k] == y;
      }
    }
  }

  /** What a sync promises: rows of other jobs stay; the job's active rows are exactly its selectors
      under this submission; the selected tables that a monitor or nobody owned become the
      job's, unscheduled and incomplete; and exactly their waiting tasks are cancelled. */
  lemma AfterSync(db: Db, owner: string, submission: string, kind: ReservationKind, sels: seq<Selector>)
    ensures var rs, u := db.reservations, Synced(db, owner, submission, kind, sels).reservations;
      && |rs| <= |u| && (forall k :: 0 <= k < |rs| && rs[k].owner != owner ==> u[k] == rs[k])
      && (forall k :: |rs| <= k < |u| ==> u[k].owner == owner)
      && forall r: Reservation :: r.owner == owner && r.active ==> (r in u <==> IsSynced(r, owner, submission, kind, sels))
  {
    hide IsSynced, UpsertedAll;
    var rs, idle := db.reservations, Deactivated(db.reservations, owner);
    var u := UpsertedAll(idle, owner, submission, kind, sels);
    UpsertedAllRows(idle, owner, submission, kind, sels);
    SyncedOwn(idle, u, owner, submission, kind, sels);
    forall k | |rs| <= k < |u| ensures u[k].owner == owner {
      assert IsSynced(u[k], owner, submission, kind, sels);
      IsOwn(u[k], owner, submission, kind, sels);
    }
  }

  lemma IsOwn(r: Reservation, owner: string, submission: string, kind: ReservationKind, sels: seq<Selector>)
    requires IsSynced(r, owner, submission, kind, sels)
    ensures r.owner == owner && r.active && exists i :: 0 <= i < |sels| && r == Reservation(owner, submission, kind, sels[i], true)
  {
  }

  lemma SyncedOwn(idle: seq<Reservation>, u: seq<Reservation>, owner: string, submission: string, kind: ReservationKind, sels: seq<Selector>)
    requires SyncedRows(idle, u, owner, submission, kind, sels)
    requires forall k :: 0 <= k < |idle| && idle[k].owner == owner ==> !idle[k].active
    ensures forall r: Reservation :: r.owner == owner && r.active ==> (r in u <==> IsSynced(r, owner, submission, kind, sels))
  {
    hide IsSynced;
    forall r: Reservation | r.owner == owner && r.active ensures r in u <==> IsSynced(r, owner, submission, kind, sels) {
      if r in u {
        var k :| 0 <= k < |u| && u[k] == r;
      }
      if IsSynced(r, owner, submission, kind, sels) {
        IsOwn(r, owner, submission, kind, sels);
      }
    }
  }

  predicate TakenBySync(s: TableState) {
    s.owner.Monitor? || s.owner == StreamExcluded || s.owner == Unmanaged
  }

  lemma TablesAfterSync(db: Db, owner: string, submission: string, kind: ReservationKind, sels: seq<Selector>, n: Name)
    ensures var r := Synced(db, owner, submission, kind, sels);
      && r == db.(reservations := r.reservations, states := r.states, tasks := r.tasks)
      && r.states.Keys == db.states.Keys
      && (n in db.states ==> var s := db.states[n];
            r.states[n] == if SelectedBy(sels, n) && TakenBySync(s)
              then s.(ownerType := if kind == Streaming then StreamingType else SnapshotType, owner := Job(owner),
                      complete := false, nextInventory := None, priority := 0)
              else s)
      && Drops(db.tasks, r.tasks, (t: Task) => t.table in db.states && SelectedBy(sels, t.table) && TakenBySync(db.states[t.table]))
  {
  }

  // ---- Release ----

  predicate Given(r: Reservation, owner: string, submission: string) {
    r.active && r.owner == owner && r.submission == submission
  }

  ghost predicate Gives(rs: seq<Reservation>, owner: string, submission: string) {
    exists k :: 0 <= k < |rs| && Given(rs[k], owner, submission)
  }

  ghost predicate GivesIn(rs: seq<Reservation>, owner: string, submission: string, catalog: string) {
    exists k :: 0 <= k < |rs| && Given(rs[k], owner, submission) && rs[k].selector.catalog == catalog
  }

  lemma ReleasedRows(rs: seq<Reservation>, owner: string, submission: string)
    ensures var u := Released(rs, owner, submission);
      && (forall k :: 0 <= k < |rs| ==> u[k] == rs[k].(active := rs[k].active && !Given(rs[k], owner, submission)))
      && (u == rs <==> !Gives(rs, owner, submission))
    ensures forall catalog :: ReleaseTouches(rs, owner, submission, catalog) <==> GivesIn(rs, owner, submission, catalog)
    ensures forall catalog :: GivesIn(rs, owner, submission, catalog) ==> Gives(rs, owner, submission)
  {
    var u := Released(rs, owner, submission);
    if k :| 0 <= k < |rs| && Given(rs[k], owner, submission) {
      assert u[k] != rs[k];
    } else {
      assert u == rs;
    }
  }

  /** A release deactivates the submission's rows. If there were any, every table of the job in one of
      their catalogs is passed on, and the job's waiting tasks are cancelled; otherwise nothing
      happens at all. */
  lemma AfterRelease(db: Db, owner: string, submission: string, n: Name)
    ensures var r, rs := ReleasedDb(db, owner, submission), db.reservations;
      && |r.reservations| == |rs|
      && (forall k :: 0 <= k < |rs| ==> r.reservations[k] == rs[k].(active := rs[k].active && !Given(rs[k], owner, submission)))
      && r == db.(reservations := r.reservations, states := r.states, tasks := r.tasks) && r.states.Keys == db.states.Keys
      && (n in db.states ==>
            if db.states[n].owner == Job(owner) && GivesIn(rs, owner, submission, n.catalog)
            then PassedOn(r.reservations, n, db.states[n], r.states[n]) else r.states[n] == db.states[n])
      && Drops(db.tasks, r.tasks, (t: Task) => t.owner == Job(owner) && Gives(rs, owner, submission))
  {
    hide Winner, PassedOn, Released, Given, Gives, GivesIn, ReleaseTouches;
    ReleasedRows(db.reservations, owner, submission);
    if n in db.states {
      HandedIsPassedOn(Released(db.reservations, owner, submission), n, db.states[n]);
    }
  }

  // ---- Stale reservations ----

  /** The registry still has this submission, and a snapshot reservation's snapshot is not done, or a
      streaming one's job is to run, or is paused or on the way. */
  predicate Backed(db: Db, r: Reservation) {
    && r.owner in db.jobs
    && var row := db.jobs[r.owner];
    && row.submission == r.submission
    && match r.kind
       case Snapshot => !(row.metaKey != "" && row.metaKey in db.snapshots && db.snapshots[row.metaKey].done)
       case Streaming => row.desired == JobRegistry.DesiredRunning || row.status in {JobRegistry.Paused, JobRegistry.Pausing, JobRegistry.Stopping}
  }

  predicate Lapsed(db: Db, known: set<string>, r: Reservation) {
    r.active && r.owner in known && !Backed(db, r)
  }

  /** Some lapsed reservation names this owner, and some lapsed one this catalog. */
  ghost predicate Shaken(db: Db, known: set<string>, n: Name) {
    && n in db.states && db.states[n].owner.Job?
    && (exists k :: 0 <= k < |db.reservations| && Lapsed(db, known, db.reservations[k]) && Job(db.reservations[k].owner) == db.states[n].owner)
    && (exists k :: 0 <= k < |db.reservations| && Lapsed(db, known, db.reservations[k]) && db.reservations[k].selector.catalog == n.catalog)
  }

  /** The table's owner still comes first on it. */
  ghost predicate StillFirst(rs: seq<Reservation>, n: Name, o: Owner) {
    exists k :: ComesFirst(rs, n, k) && Job(rs[k].owner) == o
  }

  /** Its tables are to be passed on. */
  ghost predicate Loses(db: Db, known: set<string>, rs: seq<Reservation>, n: Name) {
    Shaken(db, known, n) && !StillFirst(rs, n, db.states[n].owner)
  }

  lemma StaleIsLapsed(db: Db, known: set<string>, r: Reservation)
    ensures Stale(db, known, r) <==> Lapsed(db, known, r)
  {
  }

  /** Lapsed reservations are deactivated; a shaken table that its owner no longer comes first on is
      passed on with its waiting tasks cancelled; nothing else changes. */
  lemma AfterStaleRelease(db: Db, known: set<string>, n: Name)
    ensures var r, rs := StaleReleased(db, known), db.reservations;
      && |r.reservations| == |rs|
      && (forall k :: 0 <= k < |rs| ==> r.reservations[k] == rs[k].(active := rs[k].active && !Lapsed(db, known, rs[k])))
      && r == db.(reservations := r.reservations, states := r.states, tasks := r.tasks) && r.states.Keys == db.states.Keys
      && (n in db.states ==>
            if Loses(db, known, r.reservations, n)
            then PassedOn(r.reservations, n, db.states[n], r.states[n]) else r.states[n] == db.states[n])
      && Drops(db.tasks, r.tasks, (t: Task) => Loses(db, known, r.reservations, t.table))
  {
    hide Winner, PassedOn, StaleMoves, Loses;
    forall k: Name ensures StaleMoves(db, known, k) <==> Loses(db, known, WithoutStale(db, known), k) {
      StaleMovesWhen(db, known, k);
    }
    if n in db.states {
      HandedIsPassedOn(WithoutStale(db, known), n, db.states[n]);
    }
  }

  lemma StaleMovesWhen(db: Db, known: set<string>, n: Name)
    ensures StaleMoves(db, known, n) <==> Loses(db, known, WithoutStale(db, known), n)
  {
    hide Winner, Stale, Lapsed;
    WinnerComesFirst(WithoutStale(db, known), n);
    forall r: Reservation ensures Stale(db, known, r) <==> Lapsed(db, known, r) {
      StaleIsLapsed(db, known, r);
    }
  }
}
