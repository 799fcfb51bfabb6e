/** Who owns a table: job reservations and competing monitors, under the catalog guards. */
module MaintenanceOwnership {
  import opened Common
  import opened MaintenanceModel
  import JobRegistry

  // ---- Job reservations ----

  function Deactivated(rs: seq<Reservation>, owner: string): (r: seq<Reservation>)
    ensures |r| == |rs|
  {
    seq(|rs|, k requires 0 <= k < |rs| => if rs[k].owner == owner then rs[k].(active := false) else rs[k])
  }

  /** Insert, or reactivate the row with the same owner, submission and selector. */
  function Upserted(rs: seq<Reservation>, r: Reservation): (u: seq<Reservation>) {
    if rs == [] then [r]
    else if rs[0].owner == r.owner && rs[0].submission == r.submission && rs[0].selector == r.selector then [r] + rs[1..]
    else [rs[0]] + Upserted(rs[1..], r)
  }

  function UpsertedAll(rs: seq<Reservation>, owner: string, submission: string, kind: ReservationKind, sels: seq<Selector>): (u: seq<Reservation>) {
    if sels == [] then rs
    else Upserted(UpsertedAll(rs, owner, submission, kind, sels[..|sels| - 1]), Reservation(owner, submission, kind, sels[|sels| - 1], true))
  }

  /** A selected table that another owner is working on. */
  predicate BlocksSync(db: Db, owner: string, sels: seq<Selector>, n: Name) {
    n in db.states && SelectedBy(sels, n) && Busy(db.states[n], db.now) && db.states[n].owner != Job(owner)
  }

  /** Tables a sync transfers: those of a monitor, excluded or unmanaged. */
  predicate SyncTakes(db: Db, sels: seq<Selector>, n: Name) {
    && n in db.states && SelectedBy(sels, n)
    && (db.states[n].owner.Monitor? || db.states[n].owner == StreamExcluded || db.states[n].owner == Unmanaged)
  }

  predicate SyncAdmitted(db: Db, owner: string, submission: string, sels: seq<Selector>) {
    && owner != "" && submission != "" && sels != []
    && owner in db.jobs && db.jobs[owner].submission == submission
    && forall n :: n in db.states ==> !BlocksSync(db, owner, sels, n)
  }

  function Synced(db: Db, owner: string, submission: string, kind: ReservationKind, sels: seq<Selector>): (r: Db) {
    db.(reservations := UpsertedAll(Deactivated(db.reservations, owner), owner, submission, kind, sels),
        states := map n | n in db.states ::
          if SyncTakes(db, sels, n) then
            db.states[n].(ownerType := TypeOf(kind), owner := Job(owner), complete := false, nextInventory := None, priority := 0)
          else db.states[n],
        tasks := map id | id in db.tasks ::
          if Pending(db.tasks[id]) && SyncTakes(db, sels, db.tasks[id].table) then Cancel(db.tasks[id]) else db.tasks[id])
  }

  predicate Releases(r: Reservation, owner: string, submission: string) {
    r.active && r.owner == owner && r.submission == submission
  }

  function Released(rs: seq<Reservation>, owner: string, submission: string): (u: seq<Reservation>)
    ensures |u| == |rs|
  {
    seq(|rs|, k requires 0 <= k < |rs| => if Releases(rs[k], owner, submission) then rs[k].(active := false) else rs[k])
  }

  predicate ReleaseTouches(rs: seq<Reservation>, owner: string, submission: string, catalog: string) {
    exists k :: 0 <= k < |rs| && Releases(rs[k], owner, submission) && rs[k].selector.catalog == catalog
  }

  /** A table that its reservation owner gives up falls to the next matching reservation, or to nobody. */
  function Handed(s: TableState, winner: Option<Reservation>): (r: TableState) {
    Unscheduled(s).(priority := 0,
      ownerType := if winner.Some? then TypeOf(winner.value.kind) else UnmanagedType,
      owner := if winner.Some? then Job(winner.value.owner) else Unmanaged)
  }

  function ReleasedDb(db: Db, owner: string, submission: string): (r: Db) {
    var rs := Released(db.reservations, owner, submission);
    if rs == db.reservations then db
    else
      db.(reservations := rs,
          states := map n | n in db.states ::
            if db.states[n].owner == Job(owner) && ReleaseTouches(db.reservations, owner, submission, n.catalog)
            then Handed(db.states[n], Winner(rs, n)) else db.states[n],
          tasks := map id | id in db.tasks ::
            if Pending(db.tasks[id]) && db.tasks[id].owner == Job(owner) then Cancel(db.tasks[id]) else db.tasks[id])
  }

  /** Whether the registry still backs a reservation. */
  predicate Current(db: Db, r: Reservation) {
    && r.owner in db.jobs
    && var row := db.jobs[r.owner];
       && row.submission == r.submission
       && if r.kind == Snapshot then
            row.metaKey == "" || row.metaKey !in db.snapshots || !db.snapshots[row.metaKey].done
          else
            row.desired == JobRegistry.DesiredRunning || row.status == JobRegistry.Paused
            || row.status == JobRegistry.Pausing || row.status == JobRegistry.Stopping
  }

  predicate Stale(db: Db, known: set<string>, r: Reservation) {
    r.active && r.owner in known && !Current(db, r)
  }

  function WithoutStale(db: Db, known: set<string>): (u: seq<Reservation>)
    ensures |u| == |db.reservations|
  {
    var rs := db.reservations;
    seq(|rs|, k requires 0 <= k < |rs| => if Stale(db, known, rs[k]) then rs[k].(active := false) else rs[k])
  }

  predicate StaleTouches(db: Db, known: set<string>, n: Name) {
    && n in db.states && db.states[n].owner.Job?
    && (exists k :: 0 <= k < |db.reservations| && Stale(db, known, db.reservations[k]) && db.reservations[k].owner == db.states[n].owner.name)
    && (exists k :: 0 <= k < |db.reservations| && Stale(db, known, db.reservations[k]) && db.reservations[k].selector.catalog == n.catalog)
  }

  /** A table of a stale owner changes hands unless that owner still wins it. */
  predicate StaleMoves(db: Db, known: set<string>, n: Name) {
    && StaleTouches(db, known, n)
    && var w := Winner(WithoutStale(db, known), n);
       !(w.Some? && Job(w.value.owner) == db.states[n].owner)
  }

  function StaleReleased(db: Db, known: set<string>): (r: Db) {
    var rs := WithoutStale(db, known);
    db.(reservations := rs,
        states := map n | n in db.states :: if StaleMoves(db, known, n) then Handed(db.states[n], Winner(rs, n)) else db.states[n],
        tasks := map id | id in db.tasks ::
          if Pending(db.tasks[id]) && StaleMoves(db, known, db.tasks[id].table) then Cancel(db.tasks[id]) else db.tasks[id])
  }

  // ---- Monitors ----

  predicate Candidate(db: Db, k: (int, Name), n: Name) {
    k in db.targets && k.1 == n && db.targets[k].status != Retired && MonitorActive(db, Monitor(k.0))
  }

  function Candidates(db: Db, n: Name): (ms: set<int>)
    ensures forall m :: m in ms <==> Candidate(db, (m, n), n)
  {
    set k | k in db.targets && Candidate(db, k, n) :: k.0
  }

  /** The candidate order: more specific first, then older, then by monitor id. */
  predicate Before(db: Db, n: Name, a: int, b: int)
    requires (a, n) in db.targets && (b, n) in db.targets
  {
    var s, t := db.targets[(a, n)], db.targets[(b, n)];
    || t.specificity < s.specificity
    || (s.specificity == t.specificity && (s.created < t.created || (s.created == t.created && a <= b)))
  }

  predicate IsTop(db: Db, n: Name, m: int) {
    m in Candidates(db, n) && forall k :: k in Candidates(db, n) ==> Before(db, n, m, k)
  }

  lemma TopExists(db: Db, n: Name, ms: set<int>)
    requires ms != {} && ms <= Candidates(db, n)
    ensures exists m :: m in ms && forall k :: k in ms ==> Before(db, n, m, k)
  {
    hide MonitorActive, Candidates;
    var a :| a in ms;
    if ms == {a} {
      assert Before(db, n, a, a);
    } else {
      TopExists(db, n, ms - {a});
      var b :| b in ms - {a} && forall k :: k in ms - {a} ==> Before(db, n, b, k);
      var m := if Before(db, n, a, b) then a else b;
      forall k | k in ms ensures Before(db, n, m, k) {
        assert k == a || Before(db, n, b, k);
        assert Before(db, n, m, b) && Before(db, n, m, a);
      }
    }
  }

  /** The first candidate of the ordered query. */
  function Top(db: Db, n: Name): (m: int)
    requires Candidates(db, n) != {}
    ensures IsTop(db, n, m)
  {
    TopExists(db, n, Candidates(db, n));
    var m :| m in Candidates(db, n) && IsTop(db, n, m);
    m
  }

  /** The incumbent keeps a tie at the top specificity. */
  function Elected(db: Db, n: Name): (m: int)
    requires Candidates(db, n) != {}
    ensures m in Candidates(db, n)
  {
    var top := Top(db, n);
    if n in db.states && db.states[n].owner.Monitor? && db.states[n].owner.id in Candidates(db, n)
       && db.targets[(db.states[n].owner.id, n)].specificity == db.targets[(top, n)].specificity
    then db.states[n].owner.id else top
  }

  function WithStatus(db: Db, n: Name, owned: Option<int>, rest: ClaimStatus): (r: Db) {
    db.(targets := map k | k in db.targets ::
      if Candidate(db, k, n) then db.targets[k].(status := if owned == Some(k.0) then Owned else rest) else db.targets[k])
  }

  function CancelledFor(tasks: map<nat, Task>, n: Name, o: Owner): (r: map<nat, Task>) {
    map id | id in tasks :: if tasks[id].table == n && tasks[id].owner == o && Pending(tasks[id]) then Cancel(tasks[id]) else tasks[id]
  }

  /** Targets a discovery has just reported, with the inventory instant it asks for. */
  datatype News = News(monitor: int, found: map<Name, Found>)

  datatype Found = Found(specificity: int, nextInventory: Option<Instant>)

  function FirstInventory(db: Db, n: Name, m: int, news: News): (t: Option<Instant>) {
    if news.monitor == m && n in news.found then news.found[n].nextInventory else Some(db.now)
  }

  predicate Vacant(t: OwnerType) {
    t == UnmanagedType || t == ExcludedType || t == DeletedType
  }

  datatype Move = Stay | EvictTo(ownerType: OwnerType, owner: Owner) | Award(m: int)

  /** How the candidates' targets are labelled, if at all, and what happens to the table. */
  datatype Verdict = Verdict(relabel: bool, owned: Option<int>, rest: ClaimStatus, move: Move)

  function Decide(db: Db, n: Name): (v: Verdict) {
    var known := n in db.states;
    var monitored := known && db.states[n].owner.Monitor?;
    var live := monitored && Busy(db.states[n], db.now);
    var w := Winner(db.reservations, n);
    if Candidates(db, n) == {} then
      Verdict(false, None, Conflicted, if monitored && !live then EvictTo(UnmanagedType, Unmanaged) else Stay)
    else if live then Verdict(true, Some(db.states[n].owner.id), Conflicted, Stay)
    else if w.Some? then
      Verdict(true, None, Reserved, if monitored then EvictTo(TypeOf(w.value.kind), Job(w.value.owner)) else Stay)
    else if known && !monitored && !Vacant(db.states[n].ownerType) then Verdict(true, None, Reserved, Stay)
    else Verdict(true, Some(Elected(db, n)), Conflicted, Award(Elected(db, n)))
  }

  function Relabelled(db: Db, n: Name, v: Verdict): (t: map<(int, Name), Target>) {
    if v.relabel then WithStatus(db, n, v.owned, v.rest).targets else db.targets
  }

  /** The table's row after the move, and the owner whose waiting tasks it cancels. An evicted
      table loses its schedule; the elected monitor takes it unless it has it already. */
  function Moved(s: Option<TableState>, now: Instant, v: Move, first: Option<Instant>): (r: (Option<TableState>, Option<Owner>)) {
    match v
    case Stay => (s, None)
    case EvictTo(ownerType, owner) =>
      if s.None? then (s, None) else (Some(Unscheduled(s.value).(ownerType := ownerType, owner := owner)), Some(s.value.owner))
    case Award(m) =>
      if s.None? then (Some(TableState(MonitorType, Monitor(m), true, 0, first, 0, None, None, None, None, None)), None)
      else if s.value.owner == Monitor(m) then (s, None)
      else (Some(s.value.(ownerType := MonitorType, owner := Monitor(m), complete := true,
                          nextInventory := Coalesce(s.value.nextInventory, first), priority := 0)), Some(s.value.owner))
  }

  function Put(states: map<Name, TableState>, n: Name, s: Option<TableState>): (r: map<Name, TableState>) {
    if s.Some? then states[n := s.value] else states
  }

  function CancelIf(tasks: map<nat, Task>, n: Name, o: Option<Owner>): (r: map<nat, Task>) {
    if o.Some? then CancelledFor(tasks, n, o.value) else tasks
  }

  function Transferred(db: Db, n: Name, v: Move, first: Option<Instant>): (r: Db) {
    var moved := Moved(Lookup(db.states, n), db.now, v, first);
    db.(states := Put(db.states, n, moved.0), tasks := CancelIf(db.tasks, n, moved.1))
  }

  function FirstFor(db: Db, n: Name, v: Move, news: News): (t: Option<Instant>) {
    if v.Award? then FirstInventory(db, n, v.m, news) else None
  }

  function Enact(db: Db, n: Name, v: Verdict, news: News): (r: Db) {
    Transferred(db.(targets := Relabelled(db, n, v)), n, v.move, FirstFor(db, n, v.move, news))
  }

  /** Arbitrate one table between the active monitors that target it. */
  function Reconcile(db: Db, n: Name, news: News): (r: Db) {
    Enact(db, n, Decide(db, n), news)
  }

  function ReconcileAll(db: Db, keys: seq<Name>, news: News): (r: Db)
    decreases |keys|
  {
    if keys == [] then db else ReconcileAll(Reconcile(db, keys[0], news), keys[1..], news)
  }

  /** The monitor's target rows after a discovery, before arbitration. */
  function Retargeted(db: Db, news: News): (r: Db) {
    var m := news.monitor;
    db.(targets :=
      (map k | k in db.targets ::
        if k.0 != m then db.targets[k]
        else if k.1 !in news.found then db.targets[k].(status := Retired)
        else db.targets[k].(specificity := news.found[k.1].specificity,
                            status := if db.targets[k].status == Retired then Conflicted else db.targets[k].status))
      + (map n | n in news.found && (m, n) !in db.targets :: (m, n) := Target(news.found[n].specificity, Conflicted, db.now)))
  }

  /** Tables whose arbitration the discovery may change. */
  function Affected(db: Db, news: News): (ns: set<Name>) {
    news.found.Keys + set k | k in db.targets && k.0 == news.monitor && db.targets[k].status != Retired :: k.1
  }

  predicate DiscoveryAdmitted(db: Db, news: News) {
    MonitorActive(db, Monitor(news.monitor)) && forall n :: n in news.found ==> 0 < news.found[n].specificity
  }

  /** `keys` lists the affected tables once each, in any order. */
  ghost predicate Lists(keys: seq<Name>, ns: set<Name>) {
    && (forall n :: n in ns <==> n in keys)
    && (forall i, j :: 0 <= i < j < |keys| ==> keys[i] != keys[j])
  }

  function Discovered(db: Db, news: News, keys: seq<Name>): (r: Db) {
    ReconcileAll(Retargeted(db, news), keys, news)
  }

  // ---- Monitor lifecycle ----

  function CancelledOf(tasks: map<nat, Task>, o: Owner): (r: map<nat, Task>) {
    map id | id in tasks :: if tasks[id].owner == o && Pending(tasks[id]) then Cancel(tasks[id]) else tasks[id]
  }

  function MonitorSet(db: Db, m: int, status: MonitorStatus): (r: Db) {
    var o := Monitor(m);
    var d := db.(monitors := db.monitors[m := status]);
    if status == Paused then
      d.(states := map n | n in db.states :: if db.states[n].owner == o then Unscheduled(db.states[n]) else db.states[n],
         tasks := CancelledOf(db.tasks, o))
    else
      d.(states := map n | n in db.states ::
        if db.states[n].owner == o
        then db.states[n].(nextInventory := Coalesce(db.states[n].nextInventory, Some(db.now)), priority := 0) else db.states[n])
  }

  function MonitorDeleted(db: Db, m: int, tag: string): (r: Db) {
    var o, gone := Monitor(m), DeletedMonitor(tag);
    db.(monitors := db.monitors - {m},
        targets := map k | k in db.targets && k.0 != m :: db.targets[k],
        states := map n | n in db.states ::
          if db.states[n].owner == o then Unscheduled(db.states[n]).(ownerType := DeletedType, owner := gone) else db.states[n],
        tasks := map id | id in db.tasks ::
          if db.tasks[id].owner != o then db.tasks[id]
          else (if Pending(db.tasks[id]) then Cancel(db.tasks[id]) else db.tasks[id]).(owner := gone))
  }

  function TablesExcluded(db: Db, o: Owner, keys: set<Name>): (r: Db) {
    db.(states := map n | n in db.states ::
          if db.states[n].owner == o && n in keys
          then Unscheduled(db.states[n]).(ownerType := ExcludedType, owner := StreamExcluded, lastInventory := None, priority := 0)
          else db.states[n],
        tasks := map id | id in db.tasks ::
          if db.tasks[id].owner == o && Pending(db.tasks[id]) && db.tasks[id].table in keys then Cancel(db.tasks[id]) else db.tasks[id])
  }
}
