/** What a report, an arbitration and each monitor request do to targets, tables and tasks. */
module MonitorHistory {
  import opened Common
  import opened MaintenanceModel
  import opened MaintenanceOwnership
  import opened OwnershipHistory

  // ---- A report ----

  predicate Runs(db: Db, m: int) {
    m in db.monitors && db.monitors[m] == Active
  }

  /** A report goes through for an active monitor whose tables all have a positive specificity, and
      the arbitration that follows is about the reported tables and those it drops. */
  lemma ReportGoesThroughWhen(db: Db, news: News)
    ensures DiscoveryAdmitted(db, news) <==> Runs(db, news.monitor) && forall n :: n in news.found ==> news.found[n].specificity > 0
    ensures forall n :: n in Affected(db, news) <==>
      n in news.found || ((news.monitor, n) in db.targets && db.targets[(news.monitor, n)].status != Retired)
  {
  }

  /** A target after a report: a reported one has the reported specificity and is claimed, a missing one is
      retired, and those of other monitors stay. */
  lemma TargetAfterReport(db: Db, news: News, k: (int, Name))
    ensures var prior := Lookup(db.targets, k);
      && Retargeted(db, news) == db.(targets := Retargeted(db, news).targets)
      && Lookup(Retargeted(db, news).targets, k) == (
        if k.0 == news.monitor && k.1 in news.found then
          Some(Target(news.found[k.1].specificity,
                      if prior.Some? && prior.value.status != Retired then prior.value.status else Conflicted,
                      if prior.Some? then prior.value.created else db.now))
        else if k.0 == news.monitor && prior.Some? then Some(Target(prior.value.specificity, Retired, prior.value.created))
        else prior)
  {
  }

  // ---- Arbitration of a table ----

  /** The monitor has a claim on the table and is active. */
  predicate Competes(db: Db, m: int, n: Name) {
    (m, n) in db.targets && db.targets[(m, n)].status != Retired && Runs(db, m)
  }

  /** The competitors' targets get their labels, and no other target changes. */
  ghost predicate Labels(db: Db, targets: map<(int, Name), Target>, n: Name, owned: Option<int>, rest: ClaimStatus) {
    && targets.Keys == db.targets.Keys
    && forall k :: k in db.targets ==> var t := db.targets[k];
         targets[k] == if k.1 == n && Competes(db, k.0, n)
                         then Target(t.specificity, if owned == Some(k.0) then Owned else rest, t.created) else t
  }

  /** The table's row, and the waiting tasks of its former owner on it; nothing else of tables or tasks. */
  ghost predicate Becomes(db: Db, r: Db, n: Name, s: TableState, former: Option<Owner>) {
    && r.states == db.states[n := s]
    && Drops(db.tasks, r.tasks, (t: Task) => t.table == n && former == Some(t.owner))
  }

  ghost predicate NobodyCompetes(db: Db, n: Name) {
    forall m :: !Competes(db, m, n)
  }

  predicate OfMonitor(db: Db, n: Name) {
    n in db.states && db.states[n].owner.Monitor?
  }

  /** A monitor owns the table and an operation of it is running. */
  predicate Occupied(db: Db, n: Name) {
    OfMonitor(db, n) && WorkedOn(db.states[n], db.now)
  }

  lemma CompetesIsCandidate(db: Db, n: Name)
    ensures forall m :: m in Candidates(db, n) <==> Competes(db, m, n)
    ensures Candidates(db, n) == {} <==> NobodyCompetes(db, n)
  {
  }

  lemma WithStatusLabels(db: Db, n: Name, owned: Option<int>, rest: ClaimStatus)
    ensures Labels(db, WithStatus(db, n, owned, rest).targets, n, owned, rest)
  {
  }

  lemma CancelledForDrops(tasks: map<nat, Task>, n: Name, o: Owner)
    ensures Drops(tasks, CancelledFor(tasks, n, o), (t: Task) => t.table == n && Some(o) == Some(t.owner))
  {
  }

  /** Without a competitor, a monitor that is not at work loses the table to nobody, and that is all. */
  lemma WithoutCompetitors(db: Db, n: Name, news: News)
    requires NobodyCompetes(db, n)
    ensures var r := Reconcile(db, n, news);
      && r == db.(states := r.states, tasks := r.tasks)
      && if OfMonitor(db, n) && !Occupied(db, n)
         then Becomes(db, r, n, db.states[n].(ownerType := UnmanagedType, owner := Unmanaged, nextInventory := None), Some(db.states[n].owner))
         else r == db
  {
    hide Drops, Candidates;
    CompetesIsCandidate(db, n);
    if n in db.states {
      CancelledForDrops(db.tasks, n, db.states[n].owner);
    }
  }

  /** While the owning monitor is at work it keeps the table, and the others conflict. */
  lemma WhileOccupied(db: Db, n: Name, news: News)
    requires !NobodyCompetes(db, n) && Occupied(db, n)
    ensures var r := Reconcile(db, n, news);
      r == db.(targets := r.targets) && Labels(db, r.targets, n, Some(db.states[n].owner.id), Conflicted)
  {
    hide Candidates, WithStatus;
    CompetesIsCandidate(db, n);
    WithStatusLabels(db, n, Some(db.states[n].owner.id), Conflicted);
  }

  /** A reserved table goes from a monitor to the job whose reservation comes first, and every
      competitor is told so. */
  lemma WhenReserved(db: Db, n: Name, news: News, k: int)
    requires !NobodyCompetes(db, n) && !Occupied(db, n) && ComesFirst(db.reservations, n, k)
    ensures var r, first := Reconcile(db, n, news), db.reservations[k];
      && r == db.(targets := r.targets, states := r.states, tasks := r.tasks) && Labels(db, r.targets, n, None, Reserved)
      && if OfMonitor(db, n)
         then Becomes(db, r, n, db.states[n].(ownerType := if first.kind == Streaming then StreamingType else SnapshotType,
                                              owner := Job(first.owner), nextInventory := None), Some(db.states[n].owner))
         else r.states == db.states && r.tasks == db.tasks
  {
    hide Candidates, WithStatus, Drops, ComesFirst, Winner;
    CompetesIsCandidate(db, n);
    WinnerComesFirst(db.reservations, n);
    WithStatusLabels(db, n, None, Reserved);
    if n in db.states {
      CancelledForDrops(db.tasks, n, db.states[n].owner);
    }
  }

  /** A table that somebody else owns, and that is not free to be taken, stays where it is. */
  lemma WhenOwnedOtherwise(db: Db, n: Name, news: News)
    requires !NobodyCompetes(db, n) && n in db.states && !OfMonitor(db, n) && db.states[n].ownerType !in {UnmanagedType, ExcludedType, DeletedType}
    requires forall k :: !ComesFirst(db.reservations, n, k)
    ensures var r := Reconcile(db, n, news); r == db.(targets := r.targets) && Labels(db, r.targets, n, None, Reserved)
  {
    hide Candidates, WithStatus, ComesFirst, Winner;
    CompetesIsCandidate(db, n);
    WinnerComesFirst(db.reservations, n);
    WithStatusLabels(db, n, None, Reserved);
  }

  /** The competition decides: some competitor `m` owns the table and the others conflict. A new row starts
      complete; a row that changes hands keeps a schedule it has, and else gets the first one that
      its monitor asks for, or is due now. */
  ghost predicate Wins(db: Db, r: Db, n: Name, news: News, m: int) {
    var first := if news.monitor == m && n in news.found then news.found[n].nextInventory else Some(db.now);
    && r == db.(targets := r.targets, states := r.states, tasks := r.tasks)
    && Competes(db, m, n) && Labels(db, r.targets, n, Some(m), Conflicted)
    && if n !in db.states then
         Becomes(db, r, n, TableState(MonitorType, Monitor(m), true, 0, first, 0, None, None, None, None, None), None)
       else if db.states[n].owner == Monitor(m) then r.states == db.states && r.tasks == db.tasks
       else
         var s := db.states[n];
         Becomes(db, r, n, s.(ownerType := MonitorType, owner := Monitor(m), complete := true, priority := 0,
                              nextInventory := if s.nextInventory.Some? then s.nextInventory else first), Some(s.owner))
  }

  lemma NothingDrops(tasks: map<nat, Task>, n: Name)
    ensures Drops(tasks, tasks, (t: Task) => t.table == n && None == Some(t.owner))
  {
  }

  lemma WhenOpen(db: Db, n: Name, news: News) returns (m: int)
    requires !NobodyCompetes(db, n) && !Occupied(db, n) && forall k :: !ComesFirst(db.reservations, n, k)
    requires n in db.states && !OfMonitor(db, n) ==> db.states[n].ownerType in {UnmanagedType, ExcludedType, DeletedType}
    ensures Wins(db, Reconcile(db, n, news), n, news, m)
  {
    hide Candidates, WithStatus, Drops, ComesFirst, Winner, Elected, Labels;
    CompetesIsCandidate(db, n);
    WinnerComesFirst(db.reservations, n);
    m := Elected(db, n);
    WithStatusLabels(db, n, Some(m), Conflicted);
    NothingDrops(db.tasks, n);
    if n in db.states {
      CancelledForDrops(db.tasks, n, db.states[n].owner);
    }
  }

  // ---- Requests about a monitor ----

  /** Pausing a monitor takes the schedule off its tables and cancels its waiting tasks; activating it
      makes an unscheduled table due now; either way its tables lose their priority or keep it. */
  lemma AfterSetStatus(db: Db, m: int, status: MonitorStatus, n: Name)
    ensures var r := MonitorSet(db, m, status);
      && r == db.(monitors := db.monitors[m := status], states := r.states, tasks := r.tasks) && r.states.Keys == db.states.Keys
      && (n in db.states ==> var s := db.states[n];
            r.states[n] == if s.owner != Monitor(m) then s
                           else if status == Paused then s.(nextInventory := None)
                           else s.(nextInventory := if s.nextInventory.Some? then s.nextInventory else Some(db.now), priority := 0))
      && Drops(db.tasks, r.tasks, (t: Task) => t.owner == Monitor(m) && status == Paused)
  {
  }

  /** Deleting a monitor removes it and its targets, and leaves its tables and tasks, unscheduled and no
      longer waiting, to a tombstone. */
  lemma AfterDelete(db: Db, m: int, tag: string, n: Name, id: nat)
    ensures var r := MonitorDeleted(db, m, tag);
      && r == db.(monitors := db.monitors - {m}, targets := r.targets, states := r.states, tasks := r.tasks)
      && r.states.Keys == db.states.Keys && r.tasks.Keys == db.tasks.Keys
      && (forall k :: Lookup(r.targets, k) == if k.0 == m then None else Lookup(db.targets, k))
      && (n in db.states ==> var s := db.states[n];
            r.states[n] == if s.owner == Monitor(m) then s.(ownerType := DeletedType, owner := DeletedMonitor(tag), nextInventory := None) else s)
      && (id in db.tasks ==> var t := db.tasks[id];
            r.tasks[id] == if t.owner != Monitor(m) then t
                           else if Waits(t) then Dropped(t).(owner := DeletedMonitor(tag)) else t.(owner := DeletedMonitor(tag)))
  {
  }

  /** Excluding tables takes those that the owner has from it, and cancels its waiting tasks on the
      listed ones. */
  lemma AfterExclude(db: Db, o: Owner, keys: set<Name>, n: Name)
    ensures var r := TablesExcluded(db, o, keys);
      && r == db.(states := r.states, tasks := r.tasks) && r.states.Keys == db.states.Keys
      && (n in db.states ==> var s := db.states[n];
            r.states[n] == if n in keys && s.owner == o
              then s.(ownerType := ExcludedType, owner := StreamExcluded, nextInventory := None, lastInventory := None, priority := 0) else s)
      && Drops(db.tasks, r.tasks, (t: Task) => t.owner == o && t.table in keys)
  {
  }
}
