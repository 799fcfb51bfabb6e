/** The maintenance store's methods, statement by statement. A body runs once its catalog
    guards and row locks are granted; each is shown to be the matching protocol step. */
module MaintenanceDatabase {
  import opened Common
  import opened MaintenanceModel
  import opened MaintenanceOwnership
  import opened MaintenanceWork
  import opened MaintenanceProtocol
  import opened MaintenanceInvariants
  import BatchClaim
  import MonitorArbitration
  import JobRegistry
  import Checkpoints

  const CHUNK := 200

  // ---- Which reservation a table falls to ----

  function OfKind(rs: seq<Reservation>, catalog: string, kind: ReservationKind): (l: seq<Reservation>) {
    if rs == [] then []
    else
      var rest := OfKind(rs[1..], catalog, kind);
      if rs[0].active && rs[0].selector.catalog == catalog && rs[0].kind == kind then [rs[0]] + rest else rest
  }

  /** A catalog's active reservations in query order: streaming ones first, each kind by id. */
  function Loaded(rs: seq<Reservation>, catalog: string): (l: seq<Reservation>) {
    OfKind(rs, catalog, Streaming) + OfKind(rs, catalog, Snapshot)
  }

  function Preferred(current: Option<Reservation>, candidate: Reservation): (r: Reservation) {
    if current.None? || (current.value.kind != Streaming && candidate.kind == Streaming) then candidate else current.value
  }

  lemma {:induction false} FirstOfKind(rs: seq<Reservation>, n: Name, wanted: ReservationKind, kind: ReservationKind)
    ensures First(OfKind(rs, n.catalog, wanted), n, kind) == if kind == wanted then First(rs, n, kind) else None
  {
    if rs != [] {
      FirstOfKind(rs[1..], n, wanted, kind);
    }
  }

  lemma {:induction false} FirstOfTwo(a: seq<Reservation>, b: seq<Reservation>, n: Name, kind: ReservationKind)
    ensures First(a + b, n, kind) == if First(a, n, kind).Some? then First(a, n, kind) else First(b, n, kind)
  {
    if a == [] {
      assert a + b == b;
    } else {
      assert (a + b)[1..] == a[1..] + b;
      FirstOfTwo(a[1..], b, n, kind);
    }
  }

  /** Reading one catalog, ordered by kind, loses no winner. */
  lemma LoadedKeepsWinner(rs: seq<Reservation>, n: Name)
    ensures Winner(Loaded(rs, n.catalog), n) == Winner(rs, n)
  {
    forall kind ensures First(Loaded(rs, n.catalog), n, kind) == First(rs, n, kind) {
      FirstOfTwo(OfKind(rs, n.catalog, Streaming), OfKind(rs, n.catalog, Snapshot), n, kind);
      FirstOfKind(rs, n, Streaming, kind);
      FirstOfKind(rs, n, Snapshot, kind);
    }
  }

  lemma WinnerOfOneMore(rs: seq<Reservation>, r: Reservation, n: Name)
    ensures Winner(rs + [r], n) == if Matches(r, n) then Some(Preferred(Winner(rs, n), r)) else Winner(rs, n)
  {
    FirstOfTwo(rs, [r], n, Streaming);
    FirstOfTwo(rs, [r], n, Snapshot);
    FirstIsFirst(rs, n, Streaming);
    FirstIsFirst(rs, n, Snapshot);
  }

  /** The fold over matching rows finds the winner, in whatever order the rows come. */
  method MatchingReservation(reservations: seq<Reservation>, n: Name) returns (winner: Option<Reservation>)
    ensures winner == Winner(reservations, n)
  {
    winner := None;
    for i := 0 to |reservations|
      invariant winner == Winner(reservations[..i], n)
    {
      assert reservations[..i + 1] == reservations[..i] + [reservations[i]];
      WinnerOfOneMore(reservations[..i], reservations[i], n);
      if Matches(reservations[i], n) {
        winner := Some(Preferred(winner, reservations[i]));
      }
    }
    assert reservations[..|reservations|] == reservations;
  }

  // ---- Statements over many rows ----

  datatype Pair = Pair(owner: string, submission: string)

  function TakenRow(s: TableState, owner: string, kind: ReservationKind): (r: TableState) {
    s.(ownerType := TypeOf(kind), owner := Job(owner), complete := false, nextInventory := None, priority := 0)
  }

  ghost predicate TakenRows(db: Db, states: map<Name, TableState>, owner: string, kind: ReservationKind, sels: seq<Selector>, left: set<Name>) {
    && states.Keys == db.states.Keys
    && forall n :: n in states ==>
      states[n] == if n !in left && SyncTakes(db, sels, n) then TakenRow(db.states[n], owner, kind) else db.states[n]
  }

  function CancelledOn(tasks: map<nat, Task>, keys: seq<Name>): (r: map<nat, Task>) {
    map id | id in tasks :: if Pending(tasks[id]) && tasks[id].table in keys then Cancel(tasks[id]) else tasks[id]
  }

  lemma CancelInChunks(tasks: map<nat, Task>, a: seq<Name>, b: seq<Name>)
    ensures CancelledOn(CancelledOn(tasks, a), b) == CancelledOn(tasks, a + b)
  {
  }

  lemma SyncDone(a: Db, b: Db, c: Db, owner: string, submission: string, kind: ReservationKind, sels: seq<Selector>, taken: seq<Name>)
    requires b == a.(reservations := UpsertedAll(Deactivated(a.reservations, owner), owner, submission, kind, sels))
    requires c == b.(states := c.states, tasks := CancelledOn(b.tasks, taken))
    requires TakenRows(b, c.states, owner, kind, sels, {}) && forall n :: n in taken <==> SyncTakes(b, sels, n)
    ensures c == Synced(a, owner, submission, kind, sels)
  {
    assert forall n :: SyncTakes(a, sels, n) <==> SyncTakes(b, sels, n);
    var d := Synced(a, owner, submission, kind, sels);
    assert c.states == d.states;
    assert c.tasks == d.tasks;
  }

  /** A table of one of these jobs; with `keep`, only if the job does not still win it. */
  predicate Leaves(s: TableState, n: Name, rs: seq<Reservation>, owners: set<string>, keep: bool) {
    && s.owner.Job? && s.owner.name in owners
    && !(keep && Winner(rs, n).Some? && Job(Winner(rs, n).value.owner) == s.owner)
  }

  predicate Goes(before: map<Name, TableState>, n: Name, rs: seq<Reservation>, owners: set<string>, catalogs: set<string>, keep: bool) {
    n in before && n.catalog in catalogs && Leaves(before[n], n, rs, owners, keep)
  }

  /** The tables that leave their jobs in some catalogs, handed to whoever wins them next. */
  ghost predicate HandedOver(before: map<Name, TableState>, after: map<Name, TableState>, changed: seq<Name>, rs: seq<Reservation>,
                             owners: set<string>, catalogs: set<string>, keep: bool) {
    && after.Keys == before.Keys
    && (forall n :: n in changed <==> Goes(before, n, rs, owners, catalogs, keep))
    && forall n :: n in after ==>
      after[n] == if Goes(before, n, rs, owners, catalogs, keep) then Handed(before[n], Winner(rs, n)) else before[n]
  }

  lemma ReleaseDone(a: Db, c: Db, changed: seq<Name>, owner: string, submission: string, catalogs: set<string>)
    requires forall n: Name :: n.catalog in catalogs <==> ReleaseTouches(a.reservations, owner, submission, n.catalog)
    requires exists k :: 0 <= k < |a.reservations| && Releases(a.reservations[k], owner, submission)
    requires c == a.(reservations := Released(a.reservations, owner, submission), states := c.states, tasks := CancelledOf(a.tasks, Job(owner)))
    requires HandedOver(a.states, c.states, changed, c.reservations, {owner}, catalogs, false)
    ensures c == ReleasedDb(a, owner, submission)
  {
    var k :| 0 <= k < |a.reservations| && Releases(a.reservations[k], owner, submission);
    assert !c.reservations[k].active;
    ReleasedRows(a, c.states, changed, owner, submission, catalogs);
  }

  lemma ReleasedRows(a: Db, states: map<Name, TableState>, changed: seq<Name>, owner: string, submission: string, catalogs: set<string>)
    requires forall n: Name :: n.catalog in catalogs <==> ReleaseTouches(a.reservations, owner, submission, n.catalog)
    requires HandedOver(a.states, states, changed, Released(a.reservations, owner, submission), {owner}, catalogs, false)
    ensures states == map n | n in a.states ::
      if a.states[n].owner == Job(owner) && ReleaseTouches(a.reservations, owner, submission, n.catalog)
      then Handed(a.states[n], Winner(Released(a.reservations, owner, submission), n)) else a.states[n]
  {
    hide Winner, Handed, Released;
    assert forall n :: n in a.states ==> (Goes(a.states, n, Released(a.reservations, owner, submission), {owner}, catalogs, false) <==>
      a.states[n].owner == Job(owner) && ReleaseTouches(a.reservations, owner, submission, n.catalog));
  }

  ghost predicate StaleIn(db: Db, known: set<string>, stale: set<Pair>) {
    forall k :: 0 <= k < |db.reservations| ==>
      (Stale(db, known, db.reservations[k]) <==>
       db.reservations[k].active && Pair(db.reservations[k].owner, db.reservations[k].submission) in stale)
  }

  lemma StaleDone(a: Db, c: Db, changed: seq<Name>, known: set<string>, owners: set<string>, catalogs: set<string>)
    requires forall o :: o in owners <==> exists k :: 0 <= k < |a.reservations| && Stale(a, known, a.reservations[k]) && a.reservations[k].owner == o
    requires forall g :: g in catalogs <==> exists k :: 0 <= k < |a.reservations| && Stale(a, known, a.reservations[k]) && a.reservations[k].selector.catalog == g
    requires c == a.(reservations := WithoutStale(a, known), states := c.states, tasks := CancelledOn(a.tasks, changed))
    requires HandedOver(a.states, c.states, changed, c.reservations, owners, catalogs, true)
    ensures c == StaleReleased(a, known)
  {
    forall n ensures StaleMoves(a, known, n) <==> Goes(a.states, n, c.reservations, owners, catalogs, true) {
    }
  }

  /** A reported target row: new, revived, or with its specificity brought up to date. */
  function Reported(existing: map<(int, Name), Target>, k: (int, Name), specificity: int, now: Instant): (t: Target) {
    if k !in existing then Target(specificity, Conflicted, now)
    else existing[k].(specificity := specificity, status := if existing[k].status == Retired then Conflicted else existing[k].status)
  }

  ghost predicate Reports(existing: map<(int, Name), Target>, targets: map<(int, Name), Target>, news: News, left: set<Name>, now: Instant) {
    && (forall k :: k in targets <==> k in existing || (k.0 == news.monitor && k.1 in news.found && k.1 !in left))
    && forall k :: k in targets ==>
      targets[k] == if k.0 == news.monitor && k.1 in news.found && k.1 !in left
                    then Reported(existing, k, news.found[k.1].specificity, now) else existing[k]
  }

  lemma TargetsRecorded(db: Db, reported: map<(int, Name), Target>, targets: map<(int, Name), Target>, news: News)
    requires Reports(db.targets, reported, news, {}, db.now)
    requires targets == map k | k in reported ::
      if k.0 == news.monitor && k.1 !in news.found then reported[k].(status := ClaimStatus.Retired) else reported[k]
    ensures db.(targets := targets) == Retargeted(db, news)
  {
    hide Retargeted, Reports;
    var r := Retargeted(db, news).targets;
    forall k ensures Lookup(r, k) == Lookup(targets, k) {
      TargetRecorded(db, reported, targets, news, k);
    }
    assert forall k :: k in r <==> Lookup(r, k).Some?;
    assert r == targets;
    OnlyTargetsChange(db, news);
  }

  lemma OnlyTargetsChange(db: Db, news: News)
    ensures Retargeted(db, news) == db.(targets := Retargeted(db, news).targets)
  {
  }

  lemma TargetRecorded(db: Db, reported: map<(int, Name), Target>, targets: map<(int, Name), Target>, news: News, k: (int, Name))
    requires Reports(db.targets, reported, news, {}, db.now)
    requires targets == map k | k in reported ::
      if k.0 == news.monitor && k.1 !in news.found then reported[k].(status := ClaimStatus.Retired) else reported[k]
    ensures Lookup(Retargeted(db, news).targets, k) == Lookup(targets, k)
  {
  }

  /** The candidates as a list. */
  ghost predicate Lineup(db: Db, n: Name, c: seq<int>) {
    && (forall i :: 0 <= i < |c| ==> c[i] in Candidates(db, n))
    && forall m :: m in Candidates(db, n) ==> m in c
  }

  lemma HeadIsTop(db: Db, n: Name, c: seq<int>)
    requires Lineup(db, n, c) && forall i, j :: 0 <= i < j < |c| ==> Before(db, n, c[i], c[j])
    ensures c != [] ==> IsTop(db, n, c[0])
  {
    hide MonitorActive;
    if c != [] {
      assert Before(db, n, c[0], c[0]);
      forall k | k in Candidates(db, n) ensures Before(db, n, c[0], k) {
        var i :| 0 <= i < |c| && c[i] == k;
      }
    }
  }

  lemma Labelled(db: Db, targets: map<(int, Name), Target>, c: seq<int>, n: Name, owned: Option<int>, other: ClaimStatus)
    requires Lineup(db, n, c)
    requires targets.Keys == db.targets.Keys
    requires forall k :: k in targets ==>
      targets[k] == if k.1 == n && k.0 in c then db.targets[k].(status := if owned == Some(k.0) then Owned else other) else db.targets[k]
    ensures db.(targets := targets) == WithStatus(db, n, owned, other)
  {
  }

  /** The affected tables, each once. */
  method ListOf(ns: set<Name>) returns (keys: seq<Name>)
    ensures Lists(keys, ns)
  {
    keys := [];
    var rest := ns;
    while rest != {}
      invariant rest <= ns
      invariant forall n :: n in keys <==> n in ns && n !in rest
      invariant forall i, j :: 0 <= i < j < |keys| ==> keys[i] != keys[j]
      decreases rest
    {
      var n :| n in rest;
      keys, rest := keys + [n], rest - {n};
    }
  }

  method Positive(found: map<Name, Found>) returns (ok: bool)
    ensures ok <==> forall n :: n in found ==> 0 < found[n].specificity
  {
    var rest := found.Keys;
    while rest != {}
      invariant rest <= found.Keys
      invariant forall n :: n in found && n !in rest ==> 0 < found[n].specificity
      decreases rest
    {
      var n :| n in rest;
      if found[n].specificity <= 0 {
        return false;
      }
      rest := rest - {n};
    }
    ok := true;
  }

  /** The columns of one UPDATE, assigned left to right: the status, which the others test, last. */
  function Disowned(t: Task, gone: Owner): (r: Task) {
    var a := t.(owner := gone);
    var b := a.(leaseOwner := if Pending(a) then None else a.leaseOwner);
    var c := b.(leaseUntil := if Pending(b) then None else b.leaseUntil);
    c.(status := if Pending(c) then Cancelled else c.status)
  }

  function TombstonedRows(states: map<Name, TableState>, m: int, tag: string): (r: map<Name, TableState>) {
    map n | n in states ::
      if states[n].owner == Monitor(m)
      then states[n].(ownerType := DeletedType, owner := DeletedMonitor(tag), nextInventory := None) else states[n]
  }

  function TombstonedTasks(tasks: map<nat, Task>, m: int, tag: string): (r: map<nat, Task>) {
    map id | id in tasks :: if tasks[id].owner == Monitor(m) then Disowned(tasks[id], DeletedMonitor(tag)) else tasks[id]
  }

  function Retried(tasks: map<nat, Task>, now: Instant): (r: map<nat, Task>) {
    map id | id in tasks ::
      if tasks[id].status == Leased && Expired(tasks[id].leaseUntil, now)
      then tasks[id].(status := Retry, leaseOwner := None, leaseUntil := None, notBefore := now) else tasks[id]
  }

  function Dropped(db: Db): (r: map<nat, Task>) {
    map id | id in db.tasks :: if Pending(db.tasks[id]) && Orphaned(db, db.tasks[id]) then Cancel(db.tasks[id]) else db.tasks[id]
  }

  function Freed(states: map<Name, TableState>, now: Instant): (r: map<Name, TableState>) {
    map n | n in states :: if Expired(states[n].leaseUntil, now) then states[n].(leaseOwner := None, leaseUntil := None) else states[n]
  }

  lemma RecoverDone(a: Db, b: Db, c: Db)
    requires b == a.(tasks := Retried(a.tasks, a.now)) && c == b.(tasks := Dropped(b), states := Freed(b.states, b.now))
    ensures c == Recovered(a)
  {
  }

  function Among(keys: seq<Name>): (ns: set<Name>) {
    set n | n in keys
  }

  function ExcludedRows(states: map<Name, TableState>, o: Owner, chunk: seq<Name>): (r: map<Name, TableState>) {
    map n | n in states ::
      if states[n].owner == o && n in chunk
      then states[n].(ownerType := ExcludedType, owner := StreamExcluded, lastInventory := None, nextInventory := None, priority := 0)
      else states[n]
  }

  function ExcludedTasks(tasks: map<nat, Task>, o: Owner, chunk: seq<Name>): (r: map<nat, Task>) {
    map id | id in tasks :: if tasks[id].owner == o && Pending(tasks[id]) && tasks[id].table in chunk then Cancel(tasks[id]) else tasks[id]
  }

  lemma ChunkDone(db: Db, o: Owner, chunk: seq<Name>)
    ensures db.(states := ExcludedRows(db.states, o, chunk), tasks := ExcludedTasks(db.tasks, o, chunk)) == TablesExcluded(db, o, Among(chunk))
  {
  }

  lemma ExcludeInChunks(db: Db, o: Owner, a: set<Name>, b: set<Name>)
    ensures TablesExcluded(TablesExcluded(db, o, a), o, b) == TablesExcluded(db, o, a + b)
  {
    var r, s := TablesExcluded(TablesExcluded(db, o, a), o, b), TablesExcluded(db, o, a + b);
    ExcludedRowsInChunks(db, o, a, b);
    assert r.tasks == s.tasks;
  }

  lemma ExcludedRowsInChunks(db: Db, o: Owner, a: set<Name>, b: set<Name>)
    ensures TablesExcluded(TablesExcluded(db, o, a), o, b).states == TablesExcluded(db, o, a + b).states
  {
  }

  ghost predicate ExcludedUpTo(db: Db, d: Db, o: Owner, keys: seq<Name>, k: nat) {
    k <= |keys| && d == TablesExcluded(db, o, Among(keys[..k]))
  }

  lemma NextChunk(db: Db, d: Db, e: Db, o: Owner, keys: seq<Name>, start: nat, end: nat)
    requires ExcludedUpTo(db, d, o, keys, start) && start <= end <= |keys|
    requires e == TablesExcluded(d, o, Among(keys[start..end]))
    ensures ExcludedUpTo(db, e, o, keys, end)
  {
    assert keys[..end] == keys[..start] + keys[start..end];
    assert Among(keys[..end]) == Among(keys[..start]) + Among(keys[start..end]);
    ExcludeInChunks(db, o, Among(keys[..start]), Among(keys[start..end]));
  }

  lemma LastChunk(db: Db, d: Db, o: Owner, keys: seq<Name>)
    requires ExcludedUpTo(db, d, o, keys, |keys|)
    ensures d == TablesExcluded(db, o, Among(keys))
  {
  }

  /** Some turn before `i` leases this task. */
  ghost predicate Leases(db: Db, worker: string, until: Instant, picks: seq<Pick>, i: nat, id: nat)
    requires i <= |picks|
  {
    exists k :: 0 <= k < i && TurnLeases(db, worker, until, picks, k) && picks[k].id == id
  }

  predicate TurnLeases(db: Db, worker: string, until: Instant, picks: seq<Pick>, k: nat)
    requires k < |picks|
  {
    var d := ClaimBatch(db, worker, until, picks[..k]);
    d.Ok? && Accepted(d.value, picks[k])
  }

  lemma {:induction false} BatchFails(db: Db, worker: string, until: Instant, picks: seq<Pick>, i: nat)
    requires i < |picks| && ClaimBatch(db, worker, until, picks[..i + 1]).Err?
    ensures ClaimBatch(db, worker, until, picks).Err?
    decreases |picks|
  {
    if i + 1 < |picks| {
      assert picks[..|picks| - 1][..i + 1] == picks[..i + 1];
      BatchFails(db, worker, until, picks[..|picks| - 1], i);
    } else {
      assert picks[..i + 1] == picks;
    }
  }

  lemma LeasesAreAccepted(db: Db, worker: string, until: Instant, picks: seq<Pick>)
    requires DistinctIds(picks) && db.now <= until && ClaimBatch(db, worker, until, picks).Ok?
    ensures forall id :: Leases(db, worker, until, picks, |picks|, id) <==>
      exists k :: 0 <= k < |picks| && picks[k].id == id && Accepted(db, picks[k])
  {
    forall k | 0 <= k < |picks| ensures TurnLeases(db, worker, until, picks, k) <==> Accepted(db, picks[k]) {
      assert picks[..|picks|] == picks;
      EarlierOk(db, worker, until, picks, k);
      BatchClaim.BatchIsAllOrNothing(db, worker, until, picks[..k]);
      BatchClaim.LaterTurn(db, ClaimBatch(db, worker, until, picks[..k]).value, worker, until, picks[..k], picks[k]);
    }
  }

  lemma EarlierOk(db: Db, worker: string, until: Instant, picks: seq<Pick>, k: nat)
    requires k < |picks| && ClaimBatch(db, worker, until, picks).Ok?
    ensures ClaimBatch(db, worker, until, picks[..k]).Ok?
  {
    if ClaimBatch(db, worker, until, picks[..k]).Err? {
      assert picks[..k + 1][..k] == picks[..k];
      BatchFails(db, worker, until, picks, k);
    }
  }

  function Deactivate(rs: seq<Reservation>, stale: set<Pair>): (r: seq<Reservation>) {
    seq(|rs|, k requires 0 <= k < |rs| => if rs[k].active && Pair(rs[k].owner, rs[k].submission) in stale then rs[k].(active := false) else rs[k])
  }

  lemma StaleSets(a: Db, known: set<string>, stale: set<Pair>, owners: set<string>, catalogs: set<string>)
    requires StaleIn(a, known, stale)
    requires forall p :: p in stale ==>
      exists k :: 0 <= k < |a.reservations| && a.reservations[k].active && p == Pair(a.reservations[k].owner, a.reservations[k].submission)
    requires owners == set p | p in stale :: p.owner
    requires catalogs == set k | 0 <= k < |a.reservations| && a.reservations[k].active
      && Pair(a.reservations[k].owner, a.reservations[k].submission) in stale :: a.reservations[k].selector.catalog
    ensures forall o :: o in owners <==> exists k :: 0 <= k < |a.reservations| && Stale(a, known, a.reservations[k]) && a.reservations[k].owner == o
    ensures forall g :: g in catalogs <==> exists k :: 0 <= k < |a.reservations| && Stale(a, known, a.reservations[k]) && a.reservations[k].selector.catalog == g
    ensures Deactivate(a.reservations, stale) == WithoutStale(a, known)
  {
  }

  lemma NothingStale(a: Db, known: set<string>)
    requires forall k :: 0 <= k < |a.reservations| ==> !Stale(a, known, a.reservations[k])
    ensures StaleReleased(a, known) == a
  {
  }

  // ---- Which due scan comes first ----

  /** How long a scan has been due; a table never scanned counts from its creation. */
  function DueSince(s: TableState, created: Instant): (at: Instant) {
    if s.nextInventory.Some? then s.nextInventory.value
    else if s.lastInventory.Some? then s.lastInventory.value
    else created
  }

  /** Higher priority first, then a past error, then the longest due. */
  predicate Sooner(states: map<Name, TableState>, failed: set<Name>, created: Name -> Instant, a: Name, b: Name)
    requires a in states && b in states
  {
    var s, t := states[a], states[b];
    || t.priority < s.priority
    || (s.priority == t.priority && a in failed && b !in failed)
    || (s.priority == t.priority && (a in failed <==> b in failed) && DueSince(s, created(a)) < DueSince(t, created(b)))
  }

  /** The order of claims: priority decides, then a past error, and then the longest wait, which runs
      from the due time, else the last inspection, else the creation. */
  lemma ScanOrder(states: map<Name, TableState>, failed: set<Name>, created: Name -> Instant, a: Name, b: Name)
    requires a in states && b in states
    ensures states[b].priority < states[a].priority ==> Sooner(states, failed, created, a, b) && !Sooner(states, failed, created, b, a)
    ensures states[b].priority == states[a].priority && a in failed && b !in failed ==>
      Sooner(states, failed, created, a, b) && !Sooner(states, failed, created, b, a)
    ensures states[b].priority == states[a].priority && (a in failed <==> b in failed) ==>
      (Sooner(states, failed, created, a, b) <==> Wait(states[a], created(a)) < Wait(states[b], created(b)))
  {
  }

  function Wait(s: TableState, created: Instant): (since: Instant) {
    match (s.nextInventory, s.lastInventory)
    case (Some(at), _) => at
    case (None, Some(at)) => at
    case (None, None) => created
  }

  /** Among the first `n` rows, row `k` can be scanned, none that can comes sooner, and earlier
      ones come later. */
  ghost predicate ScannedFirst(a: Db, minimum: int, rows: seq<Name>, failed: set<Name>, created: Name -> Instant, k: nat, n: nat)
    requires k < n <= |rows|
  {
    && Scannable(a, rows[k], minimum)
    && forall l :: 0 <= l < n && Scannable(a, rows[l], minimum) ==>
      !Sooner(a.states, failed, created, rows[l], rows[k]) && (l < k ==> Sooner(a.states, failed, created, rows[k], rows[l]))
  }

  class Store {
    var now: Instant
    var jobs: map<string, JobRegistry.JobRow>
    var snapshots: map<string, Checkpoints.Snapshot>
    var reservations: seq<Reservation>
    var monitors: map<int, MonitorStatus>
    var targets: map<(int, Name), Target>
    var states: map<Name, TableState>
    var tasks: map<nat, Task>

    function View(): (db: Db)
      reads this
    {
      Db(now, jobs, snapshots, reservations, monitors, targets, states, tasks)
    }

    // ---- Reservations ----

    /** The busy test of a sync: selector by selector, over the tables of its catalog. */
    method AllIdle(owner: string, sels: seq<Selector>) returns (ok: bool)
      ensures ok <==> forall n :: n in states ==> !BlocksSync(View(), owner, sels, n)
    {
      for i := 0 to |sels|
        invariant forall k, n :: 0 <= k < i && n in states && Selects(sels[k], n) ==> !Busy(states[n], now) || states[n].owner == Job(owner)
      {
        var rest := set n | n in states && n.catalog == sels[i].catalog;
        while rest != {}
          invariant rest <= states.Keys
          invariant forall n :: n in states && n !in rest && Selects(sels[i], n) ==> !Busy(states[n], now) || states[n].owner == Job(owner)
          decreases rest
        {
          var n :| n in rest;
          if Selects(sels[i], n) && Busy(states[n], now) && states[n].owner != Job(owner) {
            assert BlocksSync(View(), owner, sels, n);
            return false;
          }
          rest := rest - {n};
        }
      }
      ok := true;
    }

    method UpsertReservations(owner: string, submission: string, kind: ReservationKind, sels: seq<Selector>)
      modifies this`reservations
      ensures reservations == UpsertedAll(old(reservations), owner, submission, kind, sels)
    {
      for i := 0 to |sels|
        invariant reservations == UpsertedAll(old(reservations), owner, submission, kind, sels[..i])
      {
        assert sels[..i + 1][..i] == sels[..i];
        reservations := Upserted(reservations, Reservation(owner, submission, kind, sels[i], true));
      }
      assert sels[..|sels|] == sels;
    }

    method TakeTables(owner: string, kind: ReservationKind, sels: seq<Selector>) returns (taken: seq<Name>)
      modifies this`states
      ensures forall n :: n in taken <==> SyncTakes(old(View()), sels, n)
      ensures TakenRows(old(View()), states, owner, kind, sels, {})
    {
      ghost var before := View();
      taken := [];
      var rest := states.Keys;
      while rest != {}
        invariant rest <= states.Keys
        invariant forall n :: n in taken <==> SyncTakes(before, sels, n) && n !in rest
        invariant TakenRows(before, states, owner, kind, sels, rest)
        decreases rest
      {
        var n :| n in rest;
        if SelectedBy(sels, n) && (states[n].owner.Monitor? || states[n].owner == StreamExcluded || states[n].owner == Unmanaged) {
          taken := taken + [n];
          states := states[n := TakenRow(states[n], owner, kind)];
        }
        rest := rest - {n};
      }
    }

    /** Cancels the waiting tasks of the listed tables, at most `CHUNK` tables a statement. */
    method CancelTasksForTables(keys: seq<Name>)
      modifies this`tasks
      ensures tasks == CancelledOn(old(tasks), keys)
    {
      var start := 0;
      assert CancelledOn(tasks, keys[..0]) == tasks;
      while start < |keys|
        invariant start <= |keys| && tasks == CancelledOn(old(tasks), keys[..start])
      {
        var end := if start + CHUNK < |keys| then start + CHUNK else |keys|;
        var chunk := keys[start..end];
        assert keys[..end] == keys[..start] + chunk;
        CancelInChunks(old(tasks), keys[..start], chunk);
        tasks := CancelledOn(tasks, chunk);
        start := end;
      }
      assert keys[..|keys|] == keys;
    }

    /** Point a job's reservations at a new submission, unless a table they need is busy. */
    method SyncMaintenanceReservations(owner: string, submission: string, kind: ReservationKind, sels: seq<Selector>) returns (ok: bool)
      modifies this`reservations, this`states, this`tasks
      ensures ok == SyncAdmitted(old(View()), owner, submission, sels)
      ensures View() == if ok then Synced(old(View()), owner, submission, kind, sels) else old(View())
    {
      if owner == "" || submission == "" || sels == [] || owner !in jobs || jobs[owner].submission != submission {
        return false;
      }
      ok := AllIdle(owner, sels);
      if !ok {
        return;
      }
      ghost var before := View();
      reservations := Deactivated(reservations, owner);
      UpsertReservations(owner, submission, kind, sels);
      ghost var reserved := View();
      var taken := TakeTables(owner, kind, sels);
      CancelTasksForTables(taken);
      SyncDone(before, reserved, View(), owner, submission, kind, sels, taken);
    }

    method HandOver(owners: set<string>, catalog: string, keep: bool) returns (changed: seq<Name>)
      modifies this`states
      ensures HandedOver(old(states), states, changed, reservations, owners, {catalog}, keep)
    {
      var loaded := Loaded(reservations, catalog);
      changed := [];
      var rest := set n | n in states && n.catalog == catalog;
      while rest != {}
        invariant rest <= states.Keys == old(states).Keys
        invariant forall n :: n in rest ==> n.catalog == catalog
        invariant forall n :: n in changed <==> n !in rest && Goes(old(states), n, reservations, owners, {catalog}, keep)
        invariant forall n :: n in states ==>
          states[n] == if n !in rest && Goes(old(states), n, reservations, owners, {catalog}, keep)
                       then Handed(old(states)[n], Winner(reservations, n)) else old(states)[n]
        decreases rest
      {
        var n :| n in rest;
        rest := rest - {n};
        if states[n].owner.Job? && states[n].owner.name in owners {
          var winner := MatchingReservation(loaded, n);
          LoadedKeepsWinner(reservations, n);
          if !(keep && winner.Some? && Job(winner.value.owner) == states[n].owner) {
            states := states[n := Handed(states[n], winner)];
            changed := changed + [n];
          }
        }
      }
    }

    method HandOverAll(owners: set<string>, catalogs: set<string>, keep: bool) returns (changed: seq<Name>)
      modifies this`states
      ensures HandedOver(old(states), states, changed, reservations, owners, catalogs, keep)
    {
      changed := [];
      var rest := catalogs;
      while rest != {}
        invariant rest <= catalogs && HandedOver(old(states), states, changed, reservations, owners, catalogs - rest, keep)
        decreases rest
      {
        var catalog :| catalog in rest;
        ghost var before := states;
        var more := HandOver(owners, catalog, keep);
        changed := changed + more;
        rest := rest - {catalog};
        assert catalogs - rest == catalogs - (rest + {catalog}) + {catalog};
      }
      assert catalogs - rest == catalogs;
    }

    method ReleaseMaintenanceReservations(owner: string, submission: string)
      modifies this`reservations, this`states, this`tasks
      ensures View() == if owner == "" || submission == "" then old(View()) else ReleasedDb(old(View()), owner, submission)
    {
      if owner == "" || submission == "" {
        return;
      }
      ghost var before := View();
      var catalogs := set k | 0 <= k < |reservations| && Releases(reservations[k], owner, submission) :: reservations[k].selector.catalog;
      assert forall k :: 0 <= k < |reservations| && Releases(reservations[k], owner, submission) ==> reservations[k].selector.catalog in catalogs;
      if catalogs == {} {
        assert Released(reservations, owner, submission) == reservations;
        return;
      }
      reservations := Released(reservations, owner, submission);
      var changed := HandOverAll({owner}, catalogs, false);
      tasks := CancelledOf(tasks, Job(owner));
      ReleaseDone(before, View(), changed, owner, submission, catalogs);
    }

    /** The owner and submission pairs the registry no longer backs, each judged by its first row. */
    method StalePairs(known: set<string>) returns (stale: set<Pair>)
      requires OneSubmission(reservations)
      ensures StaleIn(View(), known, stale)
      ensures forall p :: p in stale ==>
        exists k :: 0 <= k < |reservations| && reservations[k].active && p == Pair(reservations[k].owner, reservations[k].submission)
    {
      var pairs: map<Pair, Reservation> := map[];
      for i := 0 to |reservations|
        invariant forall p :: p in pairs ==>
          pairs[p] in reservations && pairs[p].active && p == Pair(pairs[p].owner, pairs[p].submission) && p.owner in known
        invariant forall k :: 0 <= k < i && reservations[k].active && reservations[k].owner in known ==>
          Pair(reservations[k].owner, reservations[k].submission) in pairs
      {
        var r := reservations[i];
        if r.active && r.owner in known && Pair(r.owner, r.submission) !in pairs {
          pairs := pairs[Pair(r.owner, r.submission) := r];
        }
      }
      stale := set p | p in pairs && !Current(View(), pairs[p]);
    }

    /** Release whatever the registry no longer backs, keeping tables their owner still wins. */
    method ReleaseMaintenanceReservationsExcept(known: set<string>)
      requires OneSubmission(reservations)
      modifies this`reservations, this`states, this`tasks
      ensures View() == StaleReleased(old(View()), known)
    {
      ghost var before := View();
      var stale := StalePairs(known);
      if stale == {} {
        NothingStale(before, known);
        return;
      }
      var owners := set p | p in stale :: p.owner;
      var catalogs := set k | 0 <= k < |reservations| && reservations[k].active
        && Pair(reservations[k].owner, reservations[k].submission) in stale :: reservations[k].selector.catalog;
      StaleSets(before, known, stale, owners, catalogs);
      reservations := Deactivate(reservations, stale);
      var changed := HandOverAll(owners, catalogs, true);
      CancelTasksForTables(changed);
      StaleDone(before, View(), changed, known, owners, catalogs);
    }

    // ---- Monitors ----

    /** The candidates of a table, in the order of the query. */
    method LoadCandidates(n: Name) returns (c: seq<int>)
      ensures Lineup(View(), n, c)
      ensures c != [] ==> IsTop(View(), n, c[0])
      ensures forall i, j :: 0 <= i < j < |c| ==> Before(View(), n, c[i], c[j])
    {
      hide MonitorActive, Before;
      var db := View();
      var rest := Candidates(db, n);
      c := [];
      while rest != {}
        invariant rest <= Candidates(db, n)
        invariant forall i :: 0 <= i < |c| ==> c[i] in Candidates(db, n) && c[i] !in rest
        invariant forall m :: m in Candidates(db, n) && m !in rest ==> m in c
        invariant forall i, m :: 0 <= i < |c| && m in rest ==> Before(db, n, c[i], m)
        invariant forall i, j :: 0 <= i < j < |c| ==> Before(db, n, c[i], c[j])
        decreases rest
      {
        TopExists(db, n, rest);
        var m :| m in rest && forall k :: k in rest ==> Before(db, n, m, k);
        c := c + [m];
        rest := rest - {m};
      }
      HeadIsTop(db, n, c);
    }

    /** Label the candidates' targets: one may be owned, the others share a status. */
    method LabelCandidates(c: seq<int>, n: Name, owned: Option<int>, other: ClaimStatus)
      requires Lineup(View(), n, c)
      modifies this`targets
      ensures View() == WithStatus(old(View()), n, owned, other)
    {
      hide MonitorActive;
      ghost var before := View();
      for i := 0 to |c|
        invariant targets.Keys == before.targets.Keys
        invariant forall k :: k in targets ==>
          targets[k] == if k.1 == n && k.0 in c[..i]
                        then before.targets[k].(status := if owned == Some(k.0) then Owned else other) else before.targets[k]
      {
        assert c[..i + 1] == c[..i] + [c[i]];
        var status := if owned == Some(c[i]) then Owned else other;
        if targets[(c[i], n)].status != status {
          targets := targets[(c[i], n) := targets[(c[i], n)].(status := status)];
        }
      }
      assert c[..|c|] == c;
      Labelled(before, targets, c, n, owned, other);
    }

    /** The first candidate wins, unless the incumbent is a candidate of the same specificity. */
    method Elect(c: seq<int>, n: Name) returns (winner: int)
      requires c != [] && IsTop(View(), n, c[0])
      requires Lineup(View(), n, c)
      ensures winner == Elected(View(), n)
    {
      winner := c[0];
      if n in states && states[n].owner.Monitor? {
        for i := 0 to |c|
          invariant forall k :: 0 <= k < i && targets[(c[k], n)].specificity == targets[(c[0], n)].specificity ==> states[n].owner.id != c[k]
        {
          if targets[(c[i], n)].specificity == targets[(c[0], n)].specificity && states[n].owner.id == c[i] {
            return c[i];
          }
        }
      }
    }

    method ReconcileMonitorTargetOwnership(n: Name, news: News)
      modifies this`targets, this`states, this`tasks
      ensures View() == Reconcile(old(View()), n, news)
    {
      var c := LoadCandidates(n);
      var known := n in states;
      var monitored := known && states[n].owner.Monitor?;
      if c == [] {
        if monitored && !Busy(states[n], now) {
          Evict(n, UnmanagedType, Unmanaged);
        }
        return;
      }
      if monitored && Busy(states[n], now) {
        LabelCandidates(c, n, Some(states[n].owner.id), Conflicted);
        return;
      }
      var reservation := MatchingReservation(Loaded(reservations, n.catalog), n);
      LoadedKeepsWinner(reservations, n);
      if reservation.Some? {
        LabelCandidates(c, n, None, Reserved);
        if monitored {
          Evict(n, TypeOf(reservation.value.kind), Job(reservation.value.owner));
        }
      } else if known && !monitored && !Vacant(states[n].ownerType) {
        LabelCandidates(c, n, None, Reserved);
      } else {
        var winner := Elect(c, n);
        LabelCandidates(c, n, Some(winner), Conflicted);
        Award(n, winner, news);
      }
    }

    method Evict(n: Name, ownerType: OwnerType, owner: Owner)
      requires n in states
      modifies this`states, this`tasks
      ensures View() == Transferred(old(View()), n, EvictTo(ownerType, owner), None)
    {
      var before := states[n].owner;
      states := states[n := Unscheduled(states[n]).(ownerType := ownerType, owner := owner)];
      tasks := CancelledFor(tasks, n, before);
    }

    method Award(n: Name, m: int, news: News)
      modifies this`states, this`tasks
      ensures View() == Transferred(old(View()), n, MaintenanceOwnership.Award(m), FirstInventory(old(View()), n, m, news))
    {
      if n in states && states[n].owner == Monitor(m) {
        return;
      }
      var next := Some(now);
      if news.monitor == m && n in news.found {
        next := news.found[n].nextInventory;
      }
      if n !in states {
        states := states[n := TableState(MonitorType, Monitor(m), true, 0, next, 0, None, None, None, None, None)];
        return;
      }
      var before := states[n].owner;
      states := states[n := states[n].(ownerType := MonitorType, owner := Monitor(m), complete := true,
                                       nextInventory := Coalesce(states[n].nextInventory, next), priority := 0)];
      tasks := CancelledFor(tasks, n, before);
    }

    /** Insert, revive or respecify the reported targets, then retire the monitor's others. */
    method RecordTargets(news: News)
      modifies this`targets
      ensures View() == Retargeted(old(View()), news)
    {
      var existing, m := targets, news.monitor;
      var rest := news.found.Keys;
      while rest != {}
        invariant rest <= news.found.Keys
        invariant Reports(existing, targets, news, rest, now)
        decreases rest
      {
        var n :| n in rest;
        rest := rest - {n};
        var specificity := news.found[n].specificity;
        if (m, n) !in existing {
          targets := targets[(m, n) := Target(specificity, Conflicted, now)];
        } else if existing[(m, n)].status == Retired {
          targets := targets[(m, n) := existing[(m, n)].(specificity := specificity, status := Conflicted)];
        } else if existing[(m, n)].specificity != specificity {
          targets := targets[(m, n) := existing[(m, n)].(specificity := specificity)];
        }
      }
      ghost var reported := targets;
      targets := map k | k in targets :: if k.0 == m && k.1 !in news.found then targets[k].(status := Retired) else targets[k];
      TargetsRecorded(old(View()), reported, targets, news);
    }

    /** Check the report, record it, and arbitrate every affected table in turn. */
    method ApplyMonitorDiscovery(news: News) returns (ok: bool, keys: seq<Name>)
      modifies this`targets, this`states, this`tasks
      ensures ok == DiscoveryAdmitted(old(View()), news)
      ensures !ok ==> View() == old(View())
      ensures ok ==> Lists(keys, Affected(old(View()), news)) && View() == Discovered(old(View()), news, keys)
    {
      keys := [];
      ok := Positive(news.found);
      ok := ok && news.monitor in monitors && monitors[news.monitor] == Active;
      if !ok {
        return;
      }
      var affected := Affected(View(), news);
      RecordTargets(news);
      ghost var start := View();
      keys := ListOf(affected);
      for i := 0 to |keys|
        invariant ReconcileAll(View(), keys[i..], news) == ReconcileAll(start, keys, news)
      {
        ReconcileMonitorTargetOwnership(keys[i], news);
        assert keys[i..][1..] == keys[i + 1..];
      }
    }

    method SetMonitorStatus(m: int, status: MonitorStatus) returns (ok: bool)
      modifies this`monitors, this`states, this`tasks
      ensures ok == (m in old(monitors))
      ensures View() == if ok then MonitorSet(old(View()), m, status) else old(View())
    {
      ok := m in monitors;
      if !ok {
        return;
      }
      monitors := monitors[m := status];
      if status == Paused {
        states := map n | n in states :: if states[n].owner == Monitor(m) then Unscheduled(states[n]) else states[n];
        tasks := CancelledOf(tasks, Monitor(m));
      } else {
        states := map n | n in states ::
          if states[n].owner == Monitor(m)
          then states[n].(nextInventory := Coalesce(states[n].nextInventory, Some(now)), priority := 0) else states[n];
      }
    }

    method DeleteMonitor(m: int, tag: string) returns (ok: bool)
      modifies this`monitors, this`targets, this`states, this`tasks
      ensures ok == (m in old(monitors))
      ensures View() == if ok then MonitorDeleted(old(View()), m, tag) else old(View())
    {
      ok := m in monitors;
      if !ok {
        return;
      }
      monitors := monitors - {m};
      targets := map k | k in targets && k.0 != m :: targets[k];
      states := TombstonedRows(states, m, tag);
      tasks := TombstonedTasks(tasks, m, tag);
    }

    method Distinct(tables: seq<Name>) returns (keys: seq<Name>)
      ensures Among(keys) == Among(tables)
      ensures forall i, j :: 0 <= i < j < |keys| ==> keys[i] != keys[j]
    {
      keys := [];
      for i := 0 to |tables|
        invariant forall n :: n in keys <==> n in tables[..i]
        invariant forall i, j :: 0 <= i < j < |keys| ==> keys[i] != keys[j]
      {
        assert tables[..i + 1] == tables[..i] + [tables[i]];
        if tables[i] !in keys {
          keys := keys + [tables[i]];
        }
      }
      assert tables[..|tables|] == tables;
    }

    /** Drop repeated keys, then exclude the tables, at most `CHUNK` to a pair of statements. */
    method ExcludeMonitorTables(o: Owner, tables: seq<Name>)
      modifies this`states, this`tasks
      ensures View() == TablesExcluded(old(View()), o, Among(tables))
    {
      ghost var before := View();
      var keys := Distinct(tables);
      var start := 0;
      while start < |keys|
        invariant start <= |keys| && ExcludedUpTo(before, View(), o, keys, start)
      {
        var end := if start + CHUNK < |keys| then start + CHUNK else |keys|;
        ghost var d := View();
        ExcludeChunk(o, keys[start..end]);
        NextChunk(before, d, View(), o, keys, start, end);
        start := end;
      }
      LastChunk(before, View(), o, keys);
    }

    method ExcludeChunk(o: Owner, chunk: seq<Name>)
      modifies this`states, this`tasks
      ensures View() == TablesExcluded(old(View()), o, Among(chunk))
    {
      ChunkDone(View(), o, chunk);
      states := ExcludedRows(states, o, chunk);
      tasks := ExcludedTasks(tasks, o, chunk);
    }

    // ---- Inventory ----

    method CoalesceSignal(n: Name, snapshot: int, complete: bool) returns (ok: bool)
      modifies this`states
      ensures ok == WorkEnabled(old(View()), Signal(n, snapshot, complete))
      ensures View() == Apply(old(View()), Work(Signal(n, snapshot, complete)))
    {
      ok := n in states;
      if !ok {
        return;
      }
      var s := states[n];
      var changed := Differs(s.lastSnapshot, snapshot);
      if changed && (s.complete || complete) {
        s := s.(nextInventory := Some(now));
        if s.priority < 50 {
          s := s.(priority := 50);
        }
      }
      s := s.(complete := s.complete || complete);
      if changed {
        s := s.(lastSnapshot := snapshot);
      }
      states := states[n := s];
    }

    method SetSnapshotCompleteForOwner(o: Owner, complete: bool)
      modifies this`states
      ensures View() == Apply(old(View()), Work(SetComplete(o, complete)))
    {
      states := map n | n in states :: if states[n].owner == o then states[n].(complete := complete) else states[n];
    }

    /** The queue-mode claim of one due scan; `minimum` below zero counts as zero. The read goes
        through the tables that no other transaction has locked, in table-key order; the tables
        whose last action failed and the creation times complete their rows. */
    method ClaimPendingInventory(worker: string, lease: int, minimum: int, unlocked: seq<Name>, failed: set<Name>, created: Name -> Instant)
      returns (claimed: Option<Name>)
      modifies this`states
      ensures claimed.None? ==> View() == old(View()) && forall k :: 0 <= k < |unlocked| ==> !Scannable(old(View()), unlocked[k], minimum)
      ensures claimed.Some? ==> exists k :: 0 <= k < |unlocked| && unlocked[k] == claimed.value && ScannedFirst(old(View()), minimum, unlocked, failed, created, k, |unlocked|)
      ensures claimed.Some? ==> View() == Apply(old(View()), Work(ClaimScan(claimed.value, worker, lease, minimum)))
    {
      claimed := None;
      ghost var best := 0;
      for i := 0 to |unlocked|
        invariant states == old(states)
        invariant claimed.None? ==> forall k :: 0 <= k < i ==> !Scannable(View(), unlocked[k], minimum)
        invariant claimed.Some? ==> best < i && unlocked[best] == claimed.value
        invariant claimed.Some? ==> ScannedFirst(View(), minimum, unlocked, failed, created, best, i)
      {
        var n := unlocked[i];
        if Scannable(View(), n, minimum) && (claimed.None? || Sooner(states, failed, created, n, claimed.value)) {
          claimed, best := Some(n), i;
        }
      }
      if claimed.Some? {
        var n := claimed.value;
        var until := now + if lease <= 0 then MaintenanceModel.DEFAULT_LEASE else lease;
        states := states[n := states[n].(invOwner := Some(worker), invUntil := Some(until), nextInventory := Some(until))];
      }
    }

    method FinishInventoryClaim(n: Name, worker: string, snapshot: int) returns (ok: bool)
      modifies this`states
      ensures ok == WorkEnabled(old(View()), FinishScan(n, worker, snapshot))
      ensures View() == Apply(old(View()), Work(FinishScan(n, worker, snapshot)))
    {
      ok := n in states && states[n].invOwner == Some(worker);
      if !ok {
        return;
      }
      var s := states[n].(invOwner := None, invUntil := None);
      if s.lastSnapshot != snapshot {
        s := s.(nextInventory := Some(now));
        if s.priority < 50 {
          s := s.(priority := 50);
        }
      } else {
        s := s.(nextInventory := None, priority := 0);
      }
      states := states[n := s];
    }

    method RetryInventoryClaim(n: Name, worker: string, at: Instant) returns (ok: bool)
      modifies this`states
      ensures ok == WorkEnabled(old(View()), RetryScan(n, worker, at))
      ensures View() == Apply(old(View()), Work(RetryScan(n, worker, at)))
    {
      ok := n in states && states[n].invOwner == Some(worker);
      if ok {
        states := states[n := states[n].(invOwner := None, invUntil := None, nextInventory := Some(at))];
      }
    }

    // ---- Tasks ----

    /** `id` is the next automatic key. */
    method EnqueueTask(id: nat, n: Name, o: Owner, operation: string, window: string, notBefore: Instant) returns (ok: bool)
      requires id !in tasks
      modifies this`tasks
      ensures ok == WorkEnabled(old(View()), Enqueue(id, n, o, operation, window, notBefore))
      ensures View() == Apply(old(View()), Work(Enqueue(id, n, o, operation, window, notBefore)))
    {
      var present := n in states && states[n].owner == o && (states[n].ownerType != MonitorType || MonitorActive(View(), o));
      var duplicate := Recorded(tasks, n, operation, window);
      ok := present && !HasActive(tasks, n, operation) && !duplicate;
      if ok {
        tasks := tasks[id := Task(n, o, operation, window, Queued, None, None, notBefore, 0)];
      }
    }

    method RecoverExpiredMaintenanceLeases()
      modifies this`tasks, this`states
      ensures View() == Recovered(old(View()))
    {
      ghost var before := View();
      tasks := Retried(tasks, now);
      ghost var retried := View();
      tasks := Dropped(View());
      states := Freed(states, now);
      RecoverDone(before, retried, View());
    }

    /** Lease the selected tasks one by one under their tables' current ownership; any row lost on
        the way rolls every earlier turn back. */
    method ClaimTasks(worker: string, lease: int, picks: seq<Pick>) returns (ok: bool, claimed: seq<nat>)
      modifies this`tasks, this`states
      ensures ok == ClaimBatch(old(View()), worker, Until(now, lease), picks).Ok?
      ensures View() == if ok then ClaimBatch(old(View()), worker, Until(now, lease), picks).value else old(View())
      ensures !ok ==> claimed == []
      ensures ok && DistinctIds(picks) ==>
        forall id :: id in claimed <==> exists k :: 0 <= k < |picks| && picks[k].id == id && Accepted(old(View()), picks[k])
    {
      ghost var before := View();
      var savedTasks, savedStates := tasks, states;
      var until := Until(now, lease);
      claimed := [];
      for i := 0 to |picks|
        invariant ClaimBatch(before, worker, until, picks[..i]) == Ok(View())
        invariant forall id :: id in claimed <==> Leases(before, worker, until, picks, i, id)
      {
        assert picks[..i + 1][..i] == picks[..i];
        var p := picks[i];
        var turn := ClaimTurn(p, worker, until);
        if turn.None? {
          BatchFails(before, worker, until, picks, i);
          tasks, states := savedTasks, savedStates;
          return false, [];
        }
        if turn.value {
          claimed := claimed + [p.id];
        }
      }
      ok := true;
      assert picks[..|picks|] == picks;
      if DistinctIds(picks) {
        LeasesAreAccepted(before, worker, until, picks);
      }
    }

    /** One turn: None is an error, otherwise whether the task was leased. */
    method ClaimTurn(p: Pick, worker: string, until: Instant) returns (leased: Option<bool>)
      modifies this`tasks, this`states
      ensures leased.None? <==> ClaimOne(old(View()), worker, until, p).Err?
      ensures leased.None? ==> View() == old(View())
      ensures leased.Some? ==> Ok(View()) == ClaimOne(old(View()), worker, until, p) && leased.value == Accepted(old(View()), p)
    {
      if p.id !in tasks || tasks[p.id].table !in states {
        return None;
      }
      var t := tasks[p.id];
      if t.status != Queued && t.status != Retry {
        return Some(false);
      }
      var reservation := MatchingReservation(Loaded(reservations, t.table.catalog), t.table);
      LoadedKeepsWinner(reservations, t.table);
      if t.owner != p.owner || states[t.table].owner != p.owner || (reservation.Some? && Job(reservation.value.owner) != p.owner) {
        tasks := tasks[p.id := t.(status := Cancelled, leaseOwner := None, leaseUntil := None)];
        return Some(false);
      }
      if !Free(states[t.table].leaseUntil, now) || !Free(states[t.table].invUntil, now) {
        return None;
      }
      states := states[t.table := states[t.table].(leaseOwner := Some(worker), leaseUntil := Some(until))];
      tasks := tasks[p.id := t.(status := Leased, leaseOwner := Some(worker), leaseUntil := Some(until), attempts := t.attempts + 1)];
      leased := Some(true);
    }

    /** Two statements in one transaction; the second failing undoes the first. */
    method RenewTaskAndTableLease(id: nat, n: Name, worker: string, until: Instant) returns (ok: bool)
      modifies this`tasks, this`states
      ensures ok == WorkEnabled(old(View()), Renew(id, n, worker, until))
      ensures View() == Apply(old(View()), Work(Renew(id, n, worker, until)))
    {
      if id !in tasks || tasks[id].status != Leased || tasks[id].leaseOwner != Some(worker) {
        return false;
      }
      var saved := tasks;
      tasks := tasks[id := tasks[id].(leaseUntil := Some(until))];
      if n !in states || states[n].leaseOwner != Some(worker) {
        tasks := saved;
        return false;
      }
      states := states[n := states[n].(leaseUntil := Some(until))];
      ok := true;
    }

    method ReleaseMaintenanceTableLease(n: Name, worker: string)
      modifies this`states
      ensures View() == Apply(old(View()), Work(ReleaseTable(n, worker)))
    {
      if n in states && states[n].leaseOwner == Some(worker) {
        states := states[n := states[n].(leaseOwner := None, leaseUntil := None)];
      }
    }

    method FinishTask(id: nat, worker: string, status: TaskStatus, retryAt: Option<Instant>) returns (ok: bool)
      modifies this`tasks
      ensures ok == (TaskHeld(old(View()), id, worker) && (status == Retry ==> retryAt.Some?))
      ensures View() == if ok then Apply(old(View()), Work(MaintenanceProtocol.FinishTask(id, worker, status, if retryAt.Some? then retryAt.value else now)))
                        else old(View())
    {
      if status == Retry && retryAt.None? {
        return false;
      }
      ok := id in tasks && tasks[id].status == Leased && tasks[id].leaseOwner == Some(worker);
      if ok {
        tasks := tasks[id := tasks[id].(status := status, leaseOwner := None, leaseUntil := None)];
        if status == Retry {
          tasks := tasks[id := tasks[id].(notBefore := retryAt.value)];
        }
      }
    }
  }
}
