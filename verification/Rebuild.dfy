/** The table half of a snapshot rebuild: scan, archive, delete. */
module Rebuild {
  import opened Common
  import opened Checkpoints

  datatype ArchivedState = ArchivedState(
    key: string,
    offset: Option<Offset>,
    snapshot: Option<Snapshot>,
    progress: Option<Progress>,
    intents: map<string, Intent>)

  /** The state key, and the job id when it differs. */
  function Keys(stateKey: string, job: string): (ks: seq<string>) {
    [stateKey] + if job != stateKey then [job] else []
  }

  /** `state_key=? OR job_id=?`: the rows the scan reads and the delete removes. */
  predicate Selected(i: Intent, stateKey: string, job: string) {
    i.stateKey == stateKey || i.job == job
  }

  /** A receipt that a rebuild may retire. */
  predicate Resolved(i: Intent, stateKey: string, job: string) {
    i.outcome == Committed && i.job == job && (i.stateKey == stateKey || i.stateKey == job)
  }

  predicate ScanPasses(t: Tables, stateKey: string, job: string) {
    forall id :: id in t.intents && Selected(t.intents[id], stateKey, job) ==> Resolved(t.intents[id], stateKey, job)
  }

  function IntentsOf(t: Tables, key: string): (m: map<string, Intent>) {
    map id | id in t.intents && t.intents[id].stateKey == key :: t.intents[id]
  }

  function Archive(t: Tables, key: string): (a: ArchivedState) {
    ArchivedState(key, Lookup(t.offsets, key), Lookup(t.snapshots, key), Lookup(t.progress, key), IntentsOf(t, key))
  }

  function ArchiveAll(t: Tables, keys: seq<string>): (a: seq<ArchivedState>)
    ensures |a| == |keys|
    ensures forall n :: 0 <= n < |keys| ==> a[n] == Archive(t, keys[n])
  {
    if keys == [] then [] else [Archive(t, keys[0])] + ArchiveAll(t, keys[1..])
  }

  function IntentsDeleted(t: Tables, stateKey: string, job: string): (r: Tables) {
    t.(intents := map id | id in t.intents && !Selected(t.intents[id], stateKey, job) :: t.intents[id])
  }

  function StatesDeleted(t: Tables, keys: seq<string>): (r: Result<Tables>)
    decreases keys
  {
    if keys == [] then Ok(t)
    else
      var first := Mutate(t, DeleteState(keys[0]));
      if first.Err? then first else StatesDeleted(first.value, keys[1..])
  }

  /** Scan, delete the intents, then delete each key's state under its own guard. */
  function Reset(t: Tables, stateKey: string, job: string): (r: Result<Tables>) {
    if !ScanPasses(t, stateKey, job) then Err("snapshot rebuild BLOCKED")
    else StatesDeleted(IntentsDeleted(t, stateKey, job), Keys(stateKey, job))
  }

  function PutBack<V>(m: map<string, V>, key: string, v: Option<V>): (r: map<string, V>) {
    if v.Some? then m[key := v.value] else m
  }

  function Restore(t: Tables, a: ArchivedState): (r: Tables) {
    Tables(PutBack(t.offsets, a.key, a.offset), PutBack(t.snapshots, a.key, a.snapshot),
           PutBack(t.progress, a.key, a.progress), t.intents + a.intents)
  }

  function RestoreAll(t: Tables, states: seq<ArchivedState>): (r: Tables)
    decreases states
  {
    if states == [] then t else RestoreAll(Restore(t, states[0]), states[1..])
  }

  /** An intent that mentions either key, by state key or by job id. */
  predicate Touches(i: Intent, stateKey: string, job: string) {
    i.stateKey == stateKey || i.stateKey == job || i.job == stateKey || i.job == job
  }

  lemma ResetUnfolds(t: Tables, stateKey: string, job: string)
    requires ScanPasses(t, stateKey, job)
    ensures var d := IntentsDeleted(t, stateKey, job);
      && (Reset(t, stateKey, job).Ok? <==> !Retains(d, stateKey) && !Retains(d, job))
      && (Reset(t, stateKey, job).Ok? ==> Reset(t, stateKey, job).value == StateDeleted(StateDeleted(d, stateKey), job))
  {
    var d := IntentsDeleted(t, stateKey, job);
    var d1 := StateDeleted(d, stateKey);
    if job == stateKey {
      assert Keys(stateKey, job) == [stateKey] && Keys(stateKey, job)[1..] == [];
      assert StateDeleted(d1, job) == d1;
      assert StatesDeleted(d1, []) == Ok(d1);
    } else {
      assert Keys(stateKey, job)[1..] == [job];
      assert Retains(d1, job) <==> Retains(d, job);
      assert StatesDeleted(d1, [job]) == if Retains(d1, job) then Err("job state cleanup BLOCKED") else Ok(StateDeleted(d1, job));
    }
  }

  /** Every receipt that touches either key is COMMITTED, belongs to this job and sits
      under one of its two keys. */
  predicate Admissible(t: Tables, stateKey: string, job: string) {
    forall id :: id in t.intents && Touches(t.intents[id], stateKey, job) ==> Resolved(t.intents[id], stateKey, job)
  }

  /** `r` is `t` without the rows and receipts of the two keys, and otherwise unchanged. */
  ghost predicate Cleared(t: Tables, r: Tables, stateKey: string, job: string) {
    && (forall key :: key != stateKey && key != job ==> SameAt(t, r, key))
    && (forall key :: key == stateKey || key == job ==> key !in r.offsets && key !in r.snapshots && key !in r.progress)
    && (forall id :: id in r.intents <==> id in t.intents && !Touches(t.intents[id], stateKey, job))
    && (forall id :: id in r.intents ==> r.intents[id] == t.intents[id])
  }

  /** Exactly when a reset is admitted. */
  lemma ResetAdmission(t: Tables, stateKey: string, job: string)
    ensures Reset(t, stateKey, job).Ok? <==> Admissible(t, stateKey, job)
  {
    if ScanPasses(t, stateKey, job) {
      ResetUnfolds(t, stateKey, job);
      var d := IntentsDeleted(t, stateKey, job);
      if id :| id in t.intents && Touches(t.intents[id], stateKey, job) && !Selected(t.intents[id], stateKey, job) {
        assert id in d.intents;
      }
    }
  }

  /** What a reset deletes, and that it deletes nothing else. */
  lemma ResetClears(t: Tables, stateKey: string, job: string)
    requires Reset(t, stateKey, job).Ok?
    ensures Cleared(t, Reset(t, stateKey, job).value, stateKey, job)
  {
    ResetUnfolds(t, stateKey, job);
    ResetAdmission(t, stateKey, job);
  }

  /** The archive holds exactly the receipts the reset deleted, all of them COMMITTED. */
  ghost predicate HoldsDeleted(a: seq<ArchivedState>, t: Tables, r: Tables) {
    && (forall n, id :: 0 <= n < |a| && id in a[n].intents ==> id in t.intents && id !in r.intents && a[n].intents[id].outcome == Committed)
    && (forall id :: id in t.intents && id !in r.intents ==> exists n :: 0 <= n < |a| && id in a[n].intents)
  }

  lemma ArchiveHolds(a: seq<ArchivedState>, t: Tables, r: Tables, stateKey: string, job: string)
    requires Cleared(t, r, stateKey, job) && Admissible(t, stateKey, job)
    requires a == ArchiveAll(t, Keys(stateKey, job))
    ensures HoldsDeleted(a, t, r)
  {
  }

  /** Putting one archived key back makes its rows agree with the tables it was taken from. */
  lemma RestoreOne(r: Tables, t: Tables, key: string)
    requires key !in r.offsets && key !in r.snapshots && key !in r.progress
    ensures var u := Restore(r, Archive(t, key));
      && SameAt(u, t, key)
      && (forall other :: other != key ==> SameAt(u, r, other))
      && u.intents == r.intents + IntentsOf(t, key)
  {
  }

  lemma IntentsPutBack(t: Tables, r: Tables, stateKey: string, job: string)
    requires Cleared(t, r, stateKey, job) && Admissible(t, stateKey, job)
    ensures r.intents + IntentsOf(t, stateKey) + IntentsOf(t, job) == t.intents
  {
  }

  lemma RowsPutBack(t: Tables, r: Tables, r1: Tables, r2: Tables, stateKey: string, job: string)
    requires Cleared(t, r, stateKey, job) && Admissible(t, stateKey, job)
    requires r1 == Restore(r, Archive(t, stateKey))
    requires r2 == if job == stateKey then r1 else Restore(r1, Archive(t, job))
    ensures r2 == t
  {
    RestoreOne(r, t, stateKey);
    IntentsPutBack(t, r, stateKey, job);
    if job != stateKey {
      assert SameAt(r1, r, job);
      RestoreOne(r1, t, job);
    }
    forall key ensures SameAt(r2, t, key) {
      assert key != stateKey ==> SameAt(r1, r, key);
      assert key != job && job != stateKey ==> SameAt(r2, r1, key);
      assert key != stateKey && key != job ==> SameAt(t, r, key);
    }
    assert r2.intents == t.intents;
    SameTables(r2, t);
  }

  lemma RestoreAllUnfolds(r: Tables, t: Tables, stateKey: string, job: string)
    ensures var r1 := Restore(r, Archive(t, stateKey));
      RestoreAll(r, ArchiveAll(t, Keys(stateKey, job))) == if job == stateKey then r1 else Restore(r1, Archive(t, job))
  {
    var a := ArchiveAll(t, Keys(stateKey, job));
    var r1 := Restore(r, a[0]);
    if job == stateKey {
      assert a[1..] == [];
    } else {
      assert a[1..] == [a[1]];
      assert RestoreAll(r1, [a[1]]) == Restore(r1, a[1]);
    }
  }

  /** Conservation: the archive accounts for every deleted receipt, and putting the
      archive back gives the old tables. */
  lemma ResetConserves(t: Tables, stateKey: string, job: string)
    requires Reset(t, stateKey, job).Ok?
    ensures var r := Reset(t, stateKey, job).value;
      var a := ArchiveAll(t, Keys(stateKey, job));
      RestoreAll(r, a) == t && HoldsDeleted(a, t, r)
  {
    var r := Reset(t, stateKey, job).value;
    ResetClears(t, stateKey, job);
    ResetAdmission(t, stateKey, job);
    ArchiveHolds(ArchiveAll(t, Keys(stateKey, job)), t, r, stateKey, job);
    RestoreAllUnfolds(r, t, stateKey, job);
    var r1 := Restore(r, Archive(t, stateKey));
    RowsPutBack(t, r, r1, if job == stateKey then r1 else Restore(r1, Archive(t, job)), stateKey, job);
  }

  lemma SameTables(t: Tables, u: Tables)
    requires forall key :: SameAt(t, u, key)
    requires forall id :: Lookup(t.intents, id) == Lookup(u.intents, id)
    ensures t == u
  {
    forall key ensures Lookup(t.offsets, key) == Lookup(u.offsets, key)
      && Lookup(t.snapshots, key) == Lookup(u.snapshots, key)
      && Lookup(t.progress, key) == Lookup(u.progress, key)
    {
      assert SameAt(t, u, key);
    }
    SameMap(t.offsets, u.offsets);
    SameMap(t.snapshots, u.snapshots);
    SameMap(t.progress, u.progress);
    SameMap(t.intents, u.intents);
  }

  lemma SameMap<V>(m: map<string, V>, n: map<string, V>)
    requires forall k :: Lookup(m, k) == Lookup(n, k)
    ensures m == n
  {
    forall k ensures k in m <==> k in n && (k in m ==> m[k] == n[k]) {
      assert Lookup(m, k) == Lookup(n, k);
    }
  }
}
