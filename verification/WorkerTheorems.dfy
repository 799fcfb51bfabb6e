/** What holds in every run of the worker protocol. */
module WorkerTheorems {
  import opened Common
  import opened JobRegistry
  import opened Checkpoints
  import opened Rebuild
  import opened ScopedRebuild
  import opened WorkerProtocol

  // ---- Fenced writes ----

  /** The store call a step makes durable, if any. */
  function Performed(w: World, op: Op): (m: Option<Mutation>) {
    if !Enabled(w, op) then None
    else if op.Commit? then Some(w.txs[op.x].mutation)
    else if op.Unfenced? then Some(op.mutation)
    else None
  }

  /** The checkpoint tables change only by a performed store call or by a rebuild's reset. */
  lemma TableStep(w: World, op: Op)
    ensures var m := Performed(w, op);
      var t := Apply(w, op).tables;
      || (m.Some? && Mutate(w.tables, m.value) == Ok(t))
      || (op.RebuildJob? && Enabled(w, op) && Reset(w.tables, op.stateKey, op.job) == Ok(t))
      || (m.None? && t == w.tables)
  {
    if op.RebuildJob? && Enabled(w, op) {
      ResetAdmission(w.tables, op.stateKey, op.job);
    }
  }

  /** What an admitted rebuild does to the tables. */
  lemma RebuildTables(w: World, op: Op)
    requires op.RebuildJob? && Enabled(w, op)
    ensures Reset(w.tables, op.stateKey, op.job) == Ok(Effect(w, op).tables)
    ensures Cleared(w.tables, Effect(w, op).tables, op.stateKey, op.job) && Admissible(w.tables, op.stateKey, op.job)
  {
    ResetAdmission(w.tables, op.stateKey, op.job);
    ResetClears(w.tables, op.stateKey, op.job);
  }

  /** An open transaction's token is still the one its row names. */
  lemma OpenTxIsCurrent(w: World, x: nat)
    requires Valid(w) && x in w.txs
    ensures var token := w.txs[x].token;
      && token.job in w.jobs
      && Holds(w.jobs[token.job], token.submission, token.owner)
      && Locked(w, token.job)
  {
  }

  /** What a step may do to open transactions and to rows: open one on its token, close
      some, or change one unlocked row. */
  ghost predicate LockDiscipline(w: World, op: Op, r: World) {
    || (&& r.jobs == w.jobs
        && (op.Begin? && Enabled(w, op) ==> r.txs == w.txs[op.x := Tx(op.token, op.mutation, w.now)])
        && (!(op.Begin? && Enabled(w, op)) ==> forall x :: x in r.txs ==> x in w.txs && r.txs[x] == w.txs[x]))
    || (&& !Rowless(op) && r.txs == w.txs && !Locked(w, op.job)
        && forall j :: j != op.job ==> Lookup(r.jobs, j) == Lookup(w.jobs, j))
  }

  lemma StepIsDisciplined(w: World, op: Op)
    requires Valid(w)
    ensures LockDiscipline(w, op, Apply(w, op))
  {
    if Enabled(w, op) && !Rowless(op) {
      RowStepFrame(w, op);
      if op.Submit? && Locked(w, op.job) {
        var x :| x in w.txs && w.txs[x].token.job == op.job;
        OpenTxIsCurrent(w, x);
      }
    }
  }

  /** A locked row is frozen, and a transaction that is open after a step was open before
      it or was opened by it. */
  lemma LockFreezes(w: World, op: Op, r: World, x: nat)
    requires Valid(w) && LockDiscipline(w, op, r) && x in r.txs
    ensures var tx := r.txs[x];
      || (x in w.txs && w.txs[x] == tx && tx.token.job in w.jobs && Lookup(r.jobs, tx.token.job) == Some(w.jobs[tx.token.job]))
      || (op == Begin(x, tx.token, tx.mutation) && Enabled(w, op) && tx.began == w.now && r.jobs == w.jobs)
  {
  }

  /** Step `b` opened transaction `x`, and the registry row has not changed since. */
  ghost predicate OpenSince(w: World, ops: seq<Op>, b: nat, n: nat, x: nat)
    requires b < n <= |ops| && x in At(w, ops, n).txs
  {
    var tx := At(w, ops, n).txs[x];
    && ops[b] == Begin(x, tx.token, tx.mutation)
    && Enabled(At(w, ops, b), ops[b])
    && At(w, ops, b).now == tx.began
    && tx.token.job in At(w, ops, b).jobs
    && forall k :: b <= k <= n ==> Lookup(At(w, ops, k).jobs, tx.token.job) == Some(At(w, ops, b).jobs[tx.token.job])
  }

  lemma {:induction false} OpenHistory(w: World, ops: seq<Op>, n: nat, x: nat) returns (b: nat)
    requires Initial(w) && n <= |ops| && x in At(w, ops, n).txs
    ensures b < n && OpenSince(w, ops, b, n, x)
  {
    var v, op := At(w, ops, n - 1), ops[n - 1];
    RunKeepsValid(w, ops, n - 1);
    StepIsDisciplined(v, op);
    LockFreezes(v, op, At(w, ops, n), x);
    if x in v.txs && v.txs[x] == At(w, ops, n).txs[x] {
      b := OpenHistory(w, ops, n - 1, x);
    } else {
      b := n - 1;
    }
  }

  /** In every interleaving, a checkpoint change that becomes visible was made by a rebuild,
      by an unfenced store, or by a fenced write whose token owned the row at its first check,
      still owns it at commit, and owned that same row at every state in between. */
  lemma {:induction false} EveryChangeIsFenced(w: World, ops: seq<Op>, n: nat) returns (b: nat)
    requires Initial(w) && n < |ops|
    requires At(w, ops, n + 1).tables != At(w, ops, n).tables
    ensures var v, op := At(w, ops, n), ops[n];
      || (op.RebuildJob? && Rebuildable(v, op.job, op.submission, op.stateKey))
      || op.Unfenced?
      || (&& op.Commit? && op.x in v.txs && b < n && OpenSince(w, ops, b, n, op.x)
          && var tx := v.txs[op.x];
             && Owns(At(w, ops, b).jobs, tx.token, At(w, ops, b).now)
             && Owns(v.jobs, tx.token, v.now)
             && MayFence(tx.token, tx.mutation)
             && Mutate(v.tables, tx.mutation) == Ok(At(w, ops, n + 1).tables))
  {
    hide Apply, Mutate, Owns;
    var v, op := At(w, ops, n), ops[n];
    b := 0;
    TableStep(v, op);
    RunKeepsValid(w, ops, n);
    if op.Commit? && Enabled(v, op) {
      b := OpenHistory(w, ops, n, op.x);
    }
  }

  /** While a fenced write is open, nothing but its deadline can make the second check fail. */
  lemma SecondCheckFailsOnlyByExpiry(w: World, x: nat)
    requires Valid(w) && x in w.txs
    ensures w.txs[x].token.job in w.jobs && w.jobs[w.txs[x].token.job].until.Some?
    ensures Owns(w.jobs, w.txs[x].token, w.now) <==> w.now <= w.jobs[w.txs[x].token.job].until.value
  {
  }

  // ---- Leases ----

  predicate HeldBy(w: World, job: string, owner: string) {
    job in w.jobs && w.jobs[job].owner == Some(owner)
  }

  /** The ways a lease holder can lose the row: takeover strictly after the deadline,
      its own release, or an explicit control request. */
  predicate Relinquishes(w: World, op: Op, job: string, owner: string)
    requires HeldBy(w, job, owner)
  {
    && Enabled(w, op)
    && match op
       case Claim(j, _, _, _, _) => j == job && w.jobs[job].until.Some? && w.jobs[job].until.value < w.now
       case Release(j, submission, o) => j == job && o == owner && submission == w.jobs[job].submission
       case Stop(j) => j == job
       case Resume(j, _) => j == job
       case FreshSnapshot(j) => j == job
       case DeleteJob(j) => j == job
       case _ => false
  }

  lemma LeaseStep(w: World, op: Op, job: string, owner: string)
    requires Valid(w) && HeldBy(w, job, owner)
    ensures HeldBy(Apply(w, op), job, owner) || Relinquishes(w, op, job, owner)
  {
    if Enabled(w, op) && !Rowless(op) {
      RowStepFrame(w, op);
    }
  }

  /** A worker that held the lease and no longer does lost it in one of those ways. */
  lemma {:induction false} LeaseLostOnlyBy(w: World, ops: seq<Op>, i: nat, k: nat, job: string, owner: string) returns (m: nat)
    requires Valid(w) && i <= k <= |ops|
    requires HeldBy(At(w, ops, i), job, owner) && !HeldBy(At(w, ops, k), job, owner)
    ensures i <= m < k && HeldBy(At(w, ops, m), job, owner) && Relinquishes(At(w, ops, m), ops[m], job, owner)
  {
    hide Apply;
    if HeldBy(At(w, ops, k - 1), job, owner) {
      RunKeepsValid(w, ops, k - 1);
      LeaseStep(At(w, ops, k - 1), ops[k - 1], job, owner);
      m := k - 1;
    } else {
      m := LeaseLostOnlyBy(w, ops, i, k - 1, job, owner);
    }
  }

  // ---- Epochs ----

  /** The job and submission a step presents. */
  function Credential(w: World, op: Op): (c: Option<(string, string)>) {
    match op
    case Renew(job, submission, _, _) => Some((job, submission))
    case Release(job, submission, _) => Some((job, submission))
    case SaveClaimed(job, submission, _, _, _, _, _) => Some((job, submission))
    case RebuildJob(job, submission, _, _, _) => Some((job, submission))
    case Upgrade(job, submission, _, _) => Some((job, submission))
    case Begin(_, token, _) => Some((token.job, token.submission))
    case Commit(x) => if x in w.txs then Some((w.txs[x].token.job, w.txs[x].token.submission)) else None
    case _ => None
  }

  predicate Retired(w: World, job: string, submission: string) {
    submission in w.issued && (job in w.jobs ==> w.jobs[job].submission != submission)
  }

  lemma RetiredStays(w: World, op: Op, job: string, submission: string)
    requires Valid(w) && Retired(w, job, submission)
    ensures Retired(Apply(w, op), job, submission)
  {
  }

  lemma {:induction false} RetiredForever(w: World, ops: seq<Op>, i: nat, k: nat, job: string, submission: string)
    requires Valid(w) && i <= k <= |ops| && Retired(At(w, ops, i), job, submission)
    ensures Retired(At(w, ops, k), job, submission)
  {
    hide Apply;
    if i < k {
      RetiredForever(w, ops, i, k - 1, job, submission);
      RunKeepsValid(w, ops, k - 1);
      RetiredStays(At(w, ops, k - 1), ops[k - 1], job, submission);
    }
  }

  /** Once a rebuild has opened a new epoch, no step presenting the old submission succeeds
      in any continuation: no renewal, release, save, fenced write, upgrade or second rebuild. */
  lemma {:induction false} OldEpochIsDead(w: World, ops: seq<Op>, i: nat, k: nat, op: Op)
    requires Valid(w) && i < k <= |ops|
    requires ops[i].RebuildJob? && Enabled(At(w, ops, i), ops[i])
    requires Credential(At(w, ops, k), op) == Some((ops[i].job, ops[i].submission))
    ensures !Enabled(At(w, ops, k), op)
  {
    var job, past := ops[i].job, ops[i].submission;
    RunKeepsValid(w, ops, i);
    assert Retired(At(w, ops, i + 1), job, past);
    RetiredForever(w, ops, i + 1, k, job, past);
    RunKeepsValid(w, ops, k);
  }

  // ---- Stop and pause ----

  predicate Restarts(op: Op, job: string) {
    match op
    case Resume(j, _) => j == job
    case FreshSnapshot(j) => j == job
    case RebuildJob(j, _, _, _, _) => j == job
    case Submit(j, _) => j == job
    case _ => false
  }

  predicate Halted(w: World, job: string) {
    job in w.jobs ==> w.jobs[job].desired == DesiredStopped && w.jobs[job].owner.None?
  }

  /** A step by which a worker would act on the job. */
  predicate WorkerStep(w: World, op: Op, job: string) {
    match op
    case Claim(j, _, _, _, _) => j == job
    case Renew(j, _, _, _) => j == job
    case Release(j, _, _) => j == job
    case SaveClaimed(j, _, _, _, _, _, _) => j == job
    case Begin(_, token, _) => token.job == job
    case Commit(x) => x in w.txs && w.txs[x].token.job == job
    case _ => false
  }

  lemma HaltedStep(w: World, op: Op, job: string)
    requires Halted(w, job)
    ensures Restarts(op, job) || Halted(Apply(w, op), job)
  {
  }

  lemma {:induction false} HaltedUntilRestart(w: World, ops: seq<Op>, i: nat, k: nat, job: string)
    requires i <= k <= |ops| && Halted(At(w, ops, i), job)
    requires forall m :: i <= m < k ==> !Restarts(ops[m], job)
    ensures Halted(At(w, ops, k), job)
  {
    hide Apply;
    if i < k {
      HaltedUntilRestart(w, ops, i, k - 1, job);
      HaltedStep(At(w, ops, k - 1), ops[k - 1], job);
    }
  }

  /** After a stop request no worker step on the job succeeds until it is explicitly restarted. */
  lemma {:induction false} StopIsAFence(w: World, ops: seq<Op>, i: nat, k: nat, job: string, op: Op)
    requires Valid(w) && i < k <= |ops|
    requires ops[i] == Stop(job) && Enabled(At(w, ops, i), ops[i])
    requires forall m :: i < m < k ==> !Restarts(ops[m], job)
    requires WorkerStep(At(w, ops, k), op, job)
    ensures !Enabled(At(w, ops, k), op)
  {
    assert Halted(At(w, ops, i + 1), job);
    HaltedUntilRestart(w, ops, i + 1, k, job);
    RunKeepsValid(w, ops, k);
  }

  predicate PauseRequested(w: World, job: string) {
    job in w.jobs && w.jobs[job].status == Pausing
  }

  /** The steps that answer or withdraw a pause request. */
  predicate EndsPause(op: Op, job: string) {
    match op
    case SaveClaimed(j, _, _, _, _, _, status) => j == job && !ActiveStatus(status)
    case Stop(j) => j == job
    case DeleteJob(j) => j == job
    case _ => false
  }

  lemma PauseStep(w: World, op: Op, job: string)
    requires PauseRequested(w, job)
    ensures EndsPause(op, job) || PauseRequested(Apply(w, op), job)
  {
  }

  /** A pause request survives claims, takeovers and routine saves until it is answered. */
  lemma {:induction false} PausePersists(w: World, ops: seq<Op>, i: nat, k: nat, job: string)
    requires i < k <= |ops|
    requires ops[i] == Pause(job) && Enabled(At(w, ops, i), ops[i])
    requires forall m :: i < m < k ==> !EndsPause(ops[m], job)
    ensures PauseRequested(At(w, ops, k), job)
  {
    if i + 1 < k {
      PausePersists(w, ops, i, k - 1, job);
      PauseStep(At(w, ops, k - 1), ops[k - 1], job);
    }
  }
}
