/** Arbitration between competing monitors: who wins a table, and that neither repetition nor
    the order of tables matters. */
module MonitorArbitration {
  import opened Common
  import opened MaintenanceModel
  import opened MaintenanceOwnership

  // ---- Who wins ----

  /** The monitor a verdict labels "owned" is the one its move leaves in possession. */
  lemma VerdictOwner(db: Db, n: Name, news: News, m: int)
    requires Candidates(db, n) != {}
    ensures var r := Enact(db, n, Decide(db, n), news);
      Decide(db, n).owned == Some(m) <==> n in r.states && r.states[n].owner == Monitor(m)
  {
  }

  lemma LabelOf(db: Db, n: Name, v: Verdict, news: News, m: int)
    requires v.rest != Retired
    ensures var r := Enact(db, n, v, news);
      m in Candidates(r, n) ==> m in Candidates(db, n) && (v.relabel ==> r.targets[(m, n)].status == if v.owned == Some(m) then Owned else v.rest)
  {
  }

  /** Target labels say exactly who owns the table: a candidate is "owned" when, and only when,
      the table's owner is that monitor. */
  lemma OwnedAgreesWithTable(db: Db, n: Name, news: News, m: int)
    ensures var r := Reconcile(db, n, news);
      m in Candidates(r, n) ==> (r.targets[(m, n)].status == Owned <==> n in r.states && r.states[n].owner == Monitor(m))
  {
    LabelOf(db, n, Decide(db, n), news, m);
    if Candidates(db, n) != {} {
      VerdictOwner(db, n, news, m);
    }
  }

  /** Hence at most one active target of a table is "owned". */
  lemma AtMostOneOwned(db: Db, n: Name, news: News, m: int, k: int)
    ensures var r := Reconcile(db, n, news);
      m in Candidates(r, n) && k in Candidates(r, n) && r.targets[(m, n)].status == Owned && r.targets[(k, n)].status == Owned ==> m == k
  {
    OwnedAgreesWithTable(db, n, news, m);
    OwnedAgreesWithTable(db, n, news, k);
  }

  /** The table is open to monitors: no running operation of a monitor, no reservation, and no
      owner of another kind. */
  ghost predicate Contested(db: Db, n: Name) {
    && Candidates(db, n) != {} && !IsReserved(db.reservations, n)
    && (n in db.states ==> if db.states[n].owner.Monitor? then !Busy(db.states[n], db.now) else Vacant(db.states[n].ownerType))
  }

  lemma ContestIsAwarded(db: Db, n: Name, news: News)
    requires Contested(db, n)
    ensures var r := Reconcile(db, n, news); n in r.states && r.states[n].owner == Monitor(Elected(db, n))
  {
    hide Elected, Candidates;
    WinnerIsPreferred(db.reservations, n);
  }

  /** Among the candidates of its specificity, the oldest, and by monitor id the first of those. */
  ghost predicate OldestAtTop(db: Db, n: Name, m: int)
    requires m in Candidates(db, n)
  {
    forall k :: k in Candidates(db, n) && db.targets[(k, n)].specificity == db.targets[(m, n)].specificity ==>
      var a, b := db.targets[(m, n)].created, db.targets[(k, n)].created;
      a < b || (a == b && m <= k)
  }

  /** The elected candidate is at the top, and is the first there unless it is the incumbent. */
  lemma ElectedIsAtTop(db: Db, n: Name)
    requires Candidates(db, n) != {}
    ensures var m := Elected(db, n);
      && m in Candidates(db, n)
      && (forall k :: k in Candidates(db, n) ==> db.targets[(k, n)].specificity <= db.targets[(m, n)].specificity)
      && (n in db.states && db.states[n].owner.Monitor? && db.states[n].owner.id in Candidates(db, n)
          && db.targets[(db.states[n].owner.id, n)].specificity == db.targets[(m, n)].specificity
          ==> db.states[n].owner == Monitor(m))
      && ((n in db.states && db.states[n].owner == Monitor(m)) || OldestAtTop(db, n, m))
  {
    var top := Top(db, n);
    assert forall k :: k in Candidates(db, n) ==> Before(db, n, top, k);
  }

  /** On a contested table the winner has top specificity; an incumbent at the top keeps the
      table, and otherwise the oldest top candidate, by lowest id, takes it. */
  lemma TopSpecificityWins(db: Db, n: Name, news: News) returns (m: int)
    requires Contested(db, n)
    ensures var r := Reconcile(db, n, news);
      && m in Candidates(db, n) && n in r.states && r.states[n].owner == Monitor(m)
      && (forall k :: k in Candidates(db, n) ==> db.targets[(k, n)].specificity <= db.targets[(m, n)].specificity)
      && (n in db.states && db.states[n].owner.Monitor? && db.states[n].owner.id in Candidates(db, n)
          && db.targets[(db.states[n].owner.id, n)].specificity == db.targets[(m, n)].specificity
          ==> db.states[n].owner == Monitor(m))
      && ((n in db.states && db.states[n].owner == Monitor(m)) || OldestAtTop(db, n, m))
  {
    hide Reconcile, Elected, IsTop;
    m := Elected(db, n);
    ContestIsAwarded(db, n, news);
    ElectedIsAtTop(db, n);
  }

  // ---- Repetition ----

  /** Two states that agree on everything a table's arbitration reads, labels apart. */
  ghost predicate SameContest(db: Db, d: Db, n: Name) {
    && d.now == db.now && d.monitors == db.monitors && d.reservations == db.reservations
    && (forall m :: (m, n) in db.targets <==> (m, n) in d.targets)
    && (forall m :: (m, n) in db.targets ==>
          && d.targets[(m, n)].specificity == db.targets[(m, n)].specificity
          && d.targets[(m, n)].created == db.targets[(m, n)].created
          && (d.targets[(m, n)].status == Retired <==> db.targets[(m, n)].status == Retired))
  }

  lemma SameContestSameTop(db: Db, d: Db, n: Name)
    requires SameContest(db, d, n)
    ensures Candidates(d, n) == Candidates(db, n)
    ensures Candidates(db, n) != {} ==> Top(d, n) == Top(db, n)
  {
  }

  lemma SameContestSameVerdict(db: Db, d: Db, n: Name)
    requires SameContest(db, d, n) && Lookup(d.states, n) == Lookup(db.states, n)
    ensures Decide(d, n) == Decide(db, n)
  {
  }

  lemma RelabelTwice(db: Db, n: Name, v: Verdict, news: News)
    requires v.rest != Retired
    ensures Relabelled(Enact(db, n, v, news), n, v) == Relabelled(db, n, v)
  {
  }

  ghost predicate MovesNothing(db: Db, n: Name, news: News) {
    var v := Decide(db, n);
    var d := Enact(db, n, v, news);
    var u := Decide(d, n);
    && u.relabel == v.relabel && u.owned == v.owned && u.rest == v.rest
    && Moved(Lookup(d.states, n), d.now, u.move, FirstFor(d, n, u.move, news)) == (Lookup(d.states, n), None)
  }

  lemma NextAfterAward(db: Db, n: Name, news: News)
    requires Decide(db, n).move.Award?
    ensures MovesNothing(db, n, news)
  {
    var v := Decide(db, n);
    var d := Enact(db, n, v, news);
    SameContestSameTop(db, d, n);
    assert d.states[n].owner == Monitor(v.move.m);
  }

  lemma NextAfterOther(db: Db, n: Name, news: News)
    requires !Decide(db, n).move.Award?
    ensures MovesNothing(db, n, news)
  {
    hide Elected;
    var v := Decide(db, n);
    SameContestSameTop(db, Enact(db, n, v, news), n);
  }

  /** After its verdict is enacted, a table's next verdict moves nothing. */
  lemma NextVerdict(db: Db, n: Name, news: News)
    ensures MovesNothing(db, n, news)
  {
    if Decide(db, n).move.Award? {
      NextAfterAward(db, n, news);
    } else {
      NextAfterOther(db, n, news);
    }
  }

  lemma EnactNothing(d: Db, n: Name, v: Verdict, u: Verdict, news: News)
    requires u.relabel == v.relabel && u.owned == v.owned && u.rest == v.rest && Relabelled(d, n, v) == d.targets
    requires Moved(Lookup(d.states, n), d.now, u.move, FirstFor(d, n, u.move, news)) == (Lookup(d.states, n), None)
    ensures Enact(d, n, u, news) == d
  {
    hide Moved, Relabelled, FirstFor;
    assert Put(d.states, n, Lookup(d.states, n)) == d.states;
    assert Relabelled(d, n, u) == d.targets by {
      RelabelledByLabel(d, n, v, u);
    }
  }

  lemma RelabelledByLabel(d: Db, n: Name, v: Verdict, u: Verdict)
    requires u.relabel == v.relabel && u.owned == v.owned && u.rest == v.rest
    ensures Relabelled(d, n, u) == Relabelled(d, n, v)
  {
  }

  /** Running the arbitration of a table again at the same instant changes nothing. */
  lemma ReconcileTwice(db: Db, n: Name, news: News)
    ensures Reconcile(Reconcile(db, n, news), n, news) == Reconcile(db, n, news)
  {
    hide Moved, Relabelled, FirstFor;
    var v := Decide(db, n);
    var d := Enact(db, n, v, news);
    DecideNeverRetires(db, n);
    NextVerdict(db, n, news);
    RelabelTwice(db, n, v, news);
    EnactNothing(d, n, v, Decide(d, n), news);
  }

  // ---- Order ----

  lemma LabelsCommuteAt(db: Db, d: Db, e: Db, n: Name, k: Name, v: Verdict, u: Verdict, x: (int, Name))
    requires n != k && v.rest != Retired && u.rest != Retired && x in db.targets
    requires d.monitors == db.monitors && d.targets == Relabelled(db, n, v)
    requires e.monitors == db.monitors && e.targets == Relabelled(db, k, u)
    ensures var a, b := Relabelled(d, k, u), Relabelled(e, n, v); x in a && x in b && a[x] == b[x]
  {
  }

  lemma LabelKeys(db: Db, n: Name, v: Verdict)
    ensures Relabelled(db, n, v).Keys == db.targets.Keys
  {
  }

  lemma LabelsCommute(db: Db, d: Db, e: Db, n: Name, k: Name, v: Verdict, u: Verdict)
    requires n != k && v.rest != Retired && u.rest != Retired
    requires d.monitors == db.monitors && d.targets == Relabelled(db, n, v)
    requires e.monitors == db.monitors && e.targets == Relabelled(db, k, u)
    ensures Relabelled(d, k, u) == Relabelled(e, n, v)
  {
    hide Relabelled;
    var a, b := Relabelled(d, k, u), Relabelled(e, n, v);
    LabelKeys(db, n, v);
    LabelKeys(db, k, u);
    LabelKeys(d, k, u);
    LabelKeys(e, n, v);
    forall x | x in db.targets ensures x in a && x in b && a[x] == b[x] {
      LabelsCommuteAt(db, d, e, n, k, v, u, x);
    }
    assert a == b;
  }

  lemma CancelsCommute(tasks: map<nat, Task>, n: Name, k: Name, o: Option<Owner>, p: Option<Owner>)
    requires n != k
    ensures CancelIf(CancelIf(tasks, n, o), k, p) == CancelIf(CancelIf(tasks, k, p), n, o)
  {
  }

  lemma EnactTwo(db: Db, n: Name, k: Name, v: Verdict, u: Verdict, news: News)
    requires n != k
    ensures var d := Enact(db, n, v, news);
      var s := Moved(Lookup(db.states, n), db.now, v.move, FirstFor(db, n, v.move, news));
      var t := Moved(Lookup(db.states, k), db.now, u.move, FirstFor(db, k, u.move, news));
      Enact(d, k, u, news) == db.(targets := Relabelled(d, k, u), states := Put(Put(db.states, n, s.0), k, t.0),
                                  tasks := CancelIf(CancelIf(db.tasks, n, s.1), k, t.1))
  {
  }

  lemma EnactsCommute(db: Db, n: Name, k: Name, v: Verdict, u: Verdict, news: News)
    requires n != k && v.rest != Retired && u.rest != Retired
    ensures Enact(Enact(db, n, v, news), k, u, news) == Enact(Enact(db, k, u, news), n, v, news)
  {
    EnactTwo(db, n, k, v, u, news);
    EnactTwo(db, k, n, u, v, news);
    LabelsCommute(db, Enact(db, n, v, news), Enact(db, k, u, news), n, k, v, u);
    var s := Moved(Lookup(db.states, n), db.now, v.move, FirstFor(db, n, v.move, news));
    var t := Moved(Lookup(db.states, k), db.now, u.move, FirstFor(db, k, u.move, news));
    CancelsCommute(db.tasks, n, k, s.1, t.1);
  }

  lemma VerdictElsewhere(db: Db, n: Name, k: Name, v: Verdict, news: News)
    requires n != k && v.rest != Retired
    ensures Decide(Enact(db, n, v, news), k) == Decide(db, k)
  {
    SameContestSameVerdict(db, Enact(db, n, v, news), k);
  }

  lemma DecideNeverRetires(db: Db, n: Name)
    ensures Decide(db, n).rest != Retired
  {
  }

  /** Arbitrating two tables gives the same state in either order. */
  lemma ReconcileCommutes(db: Db, n: Name, k: Name, news: News)
    requires n != k
    ensures Reconcile(Reconcile(db, n, news), k, news) == Reconcile(Reconcile(db, k, news), n, news)
  {
    var v, u := Decide(db, n), Decide(db, k);
    var d, e := Reconcile(db, n, news), Reconcile(db, k, news);
    DecideNeverRetires(db, n);
    DecideNeverRetires(db, k);
    VerdictElsewhere(db, n, k, v, news);
    VerdictElsewhere(db, k, n, u, news);
    EnactsCommute(db, n, k, v, u, news);
  }

  lemma {:induction false} Slide(db: Db, n: Name, keys: seq<Name>, news: News)
    requires n !in keys
    ensures Reconcile(ReconcileAll(db, keys, news), n, news) == ReconcileAll(Reconcile(db, n, news), keys, news)
    decreases |keys|
  {
    if keys != [] {
      ReconcileCommutes(db, n, keys[0], news);
      Slide(Reconcile(db, keys[0], news), n, keys[1..], news);
    }
  }

  ghost predicate Distinct(keys: seq<Name>) {
    forall i, j :: 0 <= i < j < |keys| ==> keys[i] != keys[j]
  }

  lemma {:induction false} ToFront(db: Db, keys: seq<Name>, i: nat, news: News)
    requires Distinct(keys) && i < |keys|
    ensures ReconcileAll(db, keys, news) == ReconcileAll(Reconcile(db, keys[i], news), keys[..i] + keys[i + 1..], news)
    decreases |keys|
  {
    var rest := keys[..i] + keys[i + 1..];
    if i == 0 {
      assert rest == keys[1..];
    } else {
      var tail := keys[1..];
      ToFront(Reconcile(db, keys[0], news), tail, i - 1, news);
      assert rest[0] == keys[0] && rest[1..] == tail[..i - 1] + tail[i..];
      ReconcileCommutes(db, keys[0], keys[i], news);
    }
  }

  lemma HasMember(keys: seq<Name>)
    requires keys != []
    ensures exists n :: n in keys
  {
    assert keys[0] in keys;
  }

  /** The order in which a discovery visits its tables does not matter. */
  lemma {:induction false} OrderDoesNotMatter(db: Db, keys: seq<Name>, other: seq<Name>, news: News)
    requires Distinct(keys) && Distinct(other)
    requires forall n :: n in keys <==> n in other
    ensures ReconcileAll(db, keys, news) == ReconcileAll(db, other, news)
    decreases |keys|
  {
    hide Reconcile;
    if keys == [] {
      if other != [] {
        HasMember(other);
      }
    } else {
      assert keys[0] in other;
      var i :| 0 <= i < |other| && other[i] == keys[0];
      var rest := other[..i] + other[i + 1..];
      ToFront(db, other, i, news);
      forall n ensures n in keys[1..] <==> n in rest {
        SameRest(keys, other, i, n);
      }
      OrderDoesNotMatter(Reconcile(db, keys[0], news), keys[1..], rest, news);
    }
  }

  lemma SameRest(keys: seq<Name>, other: seq<Name>, i: nat, n: Name)
    requires Distinct(keys) && Distinct(other) && keys != [] && i < |other| && other[i] == keys[0]
    requires forall k :: k in keys <==> k in other
    ensures n in keys[1..] <==> n in other[..i] + other[i + 1..]
  {
    assert keys == [keys[0]] + keys[1..];
    assert other == other[..i] + [other[i]] + other[i + 1..];
    assert n in keys[1..] <==> n in keys && n != keys[0];
    assert n in other[..i] + other[i + 1..] <==> n in other && n != other[i];
  }

  /** After a discovery's arbitration every visited table is settled. */
  lemma {:induction false} AllSettled(db: Db, keys: seq<Name>, news: News, n: Name)
    requires Distinct(keys) && n in keys
    ensures var d := ReconcileAll(db, keys, news); Reconcile(d, n, news) == d
    decreases |keys|
  {
    var d := Reconcile(db, keys[0], news);
    if n == keys[0] {
      Slide(d, n, keys[1..], news);
      ReconcileTwice(db, n, news);
    } else {
      AllSettled(d, keys[1..], news, n);
    }
  }

  lemma {:induction false} SettledStays(d: Db, keys: seq<Name>, news: News)
    requires forall n :: n in keys ==> Reconcile(d, n, news) == d
    ensures ReconcileAll(d, keys, news) == d
    decreases |keys|
  {
    if keys != [] {
      assert keys[0] in keys;
      SettledStays(d, keys[1..], news);
    }
  }

  /** Target rows as a discovery leaves them: what it found, with the reported specificity,
      and nothing else of that monitor still claimed. */
  ghost predicate Refreshed(db: Db, news: News) {
    && (forall n :: n in news.found ==> (
          && (news.monitor, n) in db.targets
          && db.targets[(news.monitor, n)].specificity == news.found[n].specificity && db.targets[(news.monitor, n)].status != Retired))
    && (forall k :: k in db.targets && k.0 == news.monitor && k.1 !in news.found ==> db.targets[k].status == Retired)
  }

  lemma ReconcileKeepsRefreshed(db: Db, n: Name, news: News)
    requires Refreshed(db, news)
    ensures Refreshed(Reconcile(db, n, news), news)
  {
    hide Winner, Elected, Moved, Put, CancelIf;
  }

  lemma {:induction false} ArbitrationKeepsRefreshed(db: Db, keys: seq<Name>, news: News)
    requires Refreshed(db, news)
    ensures Refreshed(ReconcileAll(db, keys, news), news)
    decreases |keys|
  {
    hide Reconcile, Refreshed;
    if keys != [] {
      ReconcileKeepsRefreshed(db, keys[0], news);
      ArbitrationKeepsRefreshed(Reconcile(db, keys[0], news), keys[1..], news);
    }
  }

  lemma RetargetedIsRefreshed(db: Db, news: News)
    ensures Refreshed(Retargeted(db, news), news)
  {
  }

  lemma FoundIsAffected(db: Db, news: News, n: Name)
    requires n in news.found
    ensures n in Affected(db, news)
  {
  }

  lemma RefreshedStays(db: Db, news: News)
    requires Refreshed(db, news)
    ensures Retargeted(db, news) == db
    ensures forall n :: n in Affected(db, news) ==> n in news.found
  {
  }

  /** A discovery repeated at the same instant with the same findings changes nothing. */
  lemma DiscoverTwice(db: Db, news: News, keys: seq<Name>, again: seq<Name>)
    requires Lists(keys, Affected(db, news))
    requires Lists(again, Affected(Discovered(db, news, keys), news))
    ensures Discovered(Discovered(db, news, keys), news, again) == Discovered(db, news, keys)
  {
    hide Reconcile, Retargeted, Refreshed, Affected;
    var start, d := Retargeted(db, news), Discovered(db, news, keys);
    RetargetedIsRefreshed(db, news);
    ArbitrationKeepsRefreshed(start, keys, news);
    RefreshedStays(d, news);
    forall n | n in again ensures Reconcile(d, n, news) == d {
      assert n in Affected(d, news);
      FoundIsAffected(db, news, n);
      AllSettled(start, keys, news, n);
    }
    SettledStays(d, again, news);
  }
}
