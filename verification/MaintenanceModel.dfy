/** The maintenance tables and the rows they hold. */
module MaintenanceModel {
  import opened Common
  import JobRegistry
  import Checkpoints

  /** A physical table, which is what a table key stands for. Names are case-normalised. */
  datatype Name = Name(catalog: string, namespace: string, table: string)

  /** `owner_job_id`, split into the name spaces its prefixes mark. Monitor ids are numbered
      in collation order. */
  datatype Owner = Monitor(id: int) | Job(name: string) | Unmanaged | StreamExcluded | DeletedMonitor(tag: string)

  datatype OwnerType = MonitorType | StreamingType | SnapshotType | JobType | UnmanagedType | ExcludedType | DeletedType

  datatype TableState = TableState(
    ownerType: OwnerType,
    owner: Owner,
    complete: bool,
    lastSnapshot: int,
    nextInventory: Option<Instant>,
    priority: int,
    lastInventory: Option<Instant>,
    invOwner: Option<string>,
    invUntil: Option<Instant>,
    leaseOwner: Option<string>,
    leaseUntil: Option<Instant>)

  datatype TaskStatus = Queued | Retry | Leased | Succeeded | Skipped | Failed | Cancelled

  datatype Task = Task(
    table: Name,
    owner: Owner,
    operation: string,
    window: string,
    status: TaskStatus,
    leaseOwner: Option<string>,
    leaseUntil: Option<Instant>,
    notBefore: Instant,
    attempts: nat)

  datatype ReservationKind = Streaming | Snapshot

  datatype Selector = Selector(catalog: string, namespacePattern: string, tablePattern: string)

  datatype Reservation = Reservation(owner: string, submission: string, kind: ReservationKind, selector: Selector, active: bool)

  datatype MonitorStatus = Active | Paused

  datatype ClaimStatus = Owned | Reserved | Conflicted | Retired

  datatype Target = Target(specificity: int, status: ClaimStatus, created: Instant)

  /** Reservations are in id order; every other table is a map from its key. */
  datatype Db = Db(
    now: Instant,
    jobs: map<string, JobRegistry.JobRow>,
    snapshots: map<string, Checkpoints.Snapshot>,
    reservations: seq<Reservation>,
    monitors: map<int, MonitorStatus>,
    targets: map<(int, Name), Target>,
    states: map<Name, TableState>,
    tasks: map<nat, Task>)

  const HOUR := 3_600_000_000
  const DEFAULT_LEASE := 15 * 60_000_000

  /** `*` and `?` of path.Match, neither of which crosses a slash. */
  predicate Glob(p: string, s: string)
    decreases |p| + |s|
  {
    if p == "" then s == ""
    else if p[0] == '*' then Glob(p[1..], s) || (s != "" && s[0] != '/' && Glob(p, s[1..]))
    else s != "" && (p[0] == s[0] || (p[0] == '?' && s[0] != '/')) && Glob(p[1..], s[1..])
  }

  /** What one character of a pattern stands for. */
  predicate StandsFor(c: char, part: string) {
    if c == '*' then '/' !in part else |part| == 1 && if c == '?' then part[0] != '/' else part[0] == c
  }

  function Concat(parts: seq<string>): (s: string) {
    if parts == [] then "" else parts[0] + Concat(parts[1..])
  }

  ghost predicate Parses(p: string, parts: seq<string>) {
    |parts| == |p| && forall k :: 0 <= k < |p| ==> StandsFor(p[k], parts[k])
  }

  /** A name matches a pattern exactly when it falls into one part for each of its characters. */
  lemma {:induction false} GlobMatchesWhen(p: string, s: string)
    ensures Glob(p, s) <==> exists parts :: Parses(p, parts) && Concat(parts) == s
  {
    if Glob(p, s) {
      var parts := PartsOf(p, s);
    }
    if parts :| Parses(p, parts) && Concat(parts) == s {
      PartsMatch(p, parts);
    }
  }

  lemma {:induction false} PartsOf(p: string, s: string) returns (parts: seq<string>)
    requires Glob(p, s)
    ensures Parses(p, parts) && Concat(parts) == s
    decreases |p| + |s|
  {
    if p == "" {
      parts := [];
    } else if p[0] == '*' && !Glob(p[1..], s) {
      parts := PartsOf(p, s[1..]);
      parts := parts[0 := [s[0]] + parts[0]];
      assert s == [s[0]] + s[1..];
    } else {
      var n := if p[0] == '*' then 0 else 1;
      parts := PartsOf(p[1..], s[n..]);
      parts := [s[..n]] + parts;
      assert s == s[..n] + s[n..];
    }
  }

  lemma {:induction false} PartsMatch(p: string, parts: seq<string>)
    requires Parses(p, parts)
    ensures Glob(p, Concat(parts))
    decreases |p| + |Concat(parts)|, |p|
  {
    if p != "" {
      var s, rest := Concat(parts), parts[1..];
      assert s == parts[0] + Concat(rest) && Parses(p[1..], rest);
      if p[0] == '*' && parts[0] != "" {
        var fewer := parts[0 := parts[0][1..]];
        assert Concat(fewer) == s[1..];
        PartsMatch(p, fewer);
      } else {
        PartsMatch(p[1..], rest);
        assert s[|parts[0]|..] == Concat(rest);
      }
    }
  }

  predicate Selects(sel: Selector, n: Name) {
    sel.catalog == n.catalog && Glob(sel.namespacePattern, n.namespace) && Glob(sel.tablePattern, n.table)
  }

  /** A selector selects within its catalog, by a pattern for the namespace and one for the table. */
  lemma SelectsWhen(sel: Selector, n: Name)
    ensures Selects(sel, n) <==>
      && n.catalog == sel.catalog
      && (exists parts :: Parses(sel.namespacePattern, parts) && Concat(parts) == n.namespace)
      && (exists parts :: Parses(sel.tablePattern, parts) && Concat(parts) == n.table)
  {
    GlobMatchesWhen(sel.namespacePattern, n.namespace);
    GlobMatchesWhen(sel.tablePattern, n.table);
  }

  predicate Matches(r: Reservation, n: Name) {
    r.active && Selects(r.selector, n)
  }

  predicate SelectedBy(sels: seq<Selector>, n: Name) {
    exists k :: 0 <= k < |sels| && Selects(sels[k], n)
  }

  /** Some active reservation covers the table. */
  predicate IsReserved(rs: seq<Reservation>, n: Name) {
    exists k :: 0 <= k < |rs| && Matches(rs[k], n)
  }

  function First(rs: seq<Reservation>, n: Name, kind: ReservationKind): (r: Option<Reservation>) {
    if rs == [] then None
    else if Matches(rs[0], n) && rs[0].kind == kind then Some(rs[0])
    else First(rs[1..], n, kind)
  }

  /** The reservation that owns a table: the oldest matching streaming one, else the oldest matching one. */
  function Winner(rs: seq<Reservation>, n: Name): (r: Option<Reservation>) {
    var s := First(rs, n, Streaming);
    if s.Some? then s else First(rs, n, Snapshot)
  }

  /** The first match is a match, and every earlier row fails to match. */
  lemma {:induction false} FirstIsFirst(rs: seq<Reservation>, n: Name, kind: ReservationKind)
    ensures var f := First(rs, n, kind);
      if f.Some? then
        exists k :: 0 <= k < |rs| && rs[k] == f.value && Matches(rs[k], n) && rs[k].kind == kind
          && forall i :: 0 <= i < k && Matches(rs[i], n) ==> rs[i].kind != kind
      else
        forall i :: 0 <= i < |rs| && Matches(rs[i], n) ==> rs[i].kind != kind
  {
    if rs != [] && !(Matches(rs[0], n) && rs[0].kind == kind) {
      FirstIsFirst(rs[1..], n, kind);
      var f := First(rs[1..], n, kind);
      if f.Some? {
        var k :| 0 <= k < |rs[1..]| && rs[1..][k] == f.value && Matches(rs[1..][k], n) && rs[1..][k].kind == kind
          && forall i :: 0 <= i < k && Matches(rs[1..][i], n) ==> rs[1..][i].kind != kind;
        assert rs[k + 1] == f.value;
        forall i | 0 <= i < k + 1 && Matches(rs[i], n) ensures rs[i].kind != kind {
          assert i > 0 ==> rs[1..][i - 1] == rs[i];
        }
      } else {
        forall i | 0 <= i < |rs| && Matches(rs[i], n) ensures rs[i].kind != kind {
          assert i > 0 ==> rs[1..][i - 1] == rs[i];
        }
      }
    }
  }

  /** A table has a winning reservation exactly when it is reserved; the winner is one of the
      matching rows, and it is a snapshot reservation only if no streaming one matches. */
  lemma WinnerIsPreferred(rs: seq<Reservation>, n: Name)
    ensures Winner(rs, n).Some? <==> IsReserved(rs, n)
    ensures var w := Winner(rs, n); w.Some? ==> w.value in rs && Matches(w.value, n)
    ensures var w := Winner(rs, n); w.Some? && w.value.kind == Snapshot ==>
      forall k :: 0 <= k < |rs| && Matches(rs[k], n) ==> rs[k].kind == Snapshot
  {
    FirstIsFirst(rs, n, Streaming);
    FirstIsFirst(rs, n, Snapshot);
  }

  /** Among the active reservations of a table, row `k` comes first: streaming before snapshot, and
      the older before the younger. */
  ghost predicate ComesFirst(rs: seq<Reservation>, n: Name, k: int) {
    && 0 <= k < |rs| && rs[k].active && Selects(rs[k].selector, n)
    && forall j :: 0 <= j < |rs| && rs[j].active && Selects(rs[j].selector, n) ==>
      if rs[j].kind == rs[k].kind then k <= j else rs[k].kind == Streaming
  }

  lemma FirstComesFirst(rs: seq<Reservation>, n: Name, kind: ReservationKind)
    ensures First(rs, n, kind).Some? && (kind == Snapshot ==> First(rs, n, Streaming).None?) ==>
      exists k :: ComesFirst(rs, n, k) && rs[k] == First(rs, n, kind).value
    ensures forall k :: ComesFirst(rs, n, k) && rs[k].kind == kind ==> First(rs, n, kind) == Some(rs[k])
    ensures forall k :: ComesFirst(rs, n, k) && rs[k].kind == Snapshot ==> First(rs, n, Streaming).None?
  {
    FirstIsFirst(rs, n, kind);
    FirstIsFirst(rs, n, Streaming);
    var f := First(rs, n, kind);
    if f.Some? && (kind == Snapshot ==> First(rs, n, Streaming).None?) {
      var k :| 0 <= k < |rs| && rs[k] == f.value && Matches(rs[k], n) && rs[k].kind == kind
        && forall i :: 0 <= i < k && Matches(rs[i], n) ==> rs[i].kind != kind;
      forall j | 0 <= j < |rs| && rs[j].active && Selects(rs[j].selector, n)
        ensures if rs[j].kind == rs[k].kind then k <= j else rs[k].kind == Streaming
      {
        assert Matches(rs[j], n);
      }
      assert ComesFirst(rs, n, k);
    }
  }

  /** The winner is the reservation that comes first, in the same sense. */
  lemma WinnerComesFirst(rs: seq<Reservation>, n: Name)
    ensures Winner(rs, n).Some? ==> exists k :: ComesFirst(rs, n, k) && rs[k] == Winner(rs, n).value
    ensures forall k :: ComesFirst(rs, n, k) ==> Winner(rs, n) == Some(rs[k])
  {
    FirstComesFirst(rs, n, Streaming);
    FirstComesFirst(rs, n, Snapshot);
  }

  function TypeOf(kind: ReservationKind): (t: OwnerType) {
    if kind == Streaming then StreamingType else SnapshotType
  }

  predicate Pending(t: Task) {
    t.status == Queued || t.status == Retry
  }

  predicate ActiveTask(t: Task) {
    Pending(t) || t.status == Leased
  }

  function Cancel(t: Task): (r: Task) {
    t.(status := Cancelled, leaseOwner := None, leaseUntil := None)
  }

  predicate MonitorActive(db: Db, o: Owner) {
    o.Monitor? && o.id in db.monitors && db.monitors[o.id] == Active
  }

  /** `lease_until` strictly after `now`: the test ownership changes apply to a running operation. */
  predicate Busy(s: TableState, now: Instant) {
    s.leaseUntil.Some? && now < s.leaseUntil.value
  }

  function Unscheduled(s: TableState): (r: TableState) {
    s.(nextInventory := None)
  }

  function Coalesce(a: Option<Instant>, b: Option<Instant>): (r: Option<Instant>) {
    if a.Some? then a else b
  }
}
