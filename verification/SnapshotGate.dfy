/** The snapshot admission queue, and the drain loops that start queued jobs under its limit. */
module SnapshotGate {
  import opened Common

  datatype Mode = Initial | SnapshotOnly | Handoff | HandoffResume | Resume

  /** `active` holds the jobs the counter finds pending, running or pausing on a slot; `waiting`
      the managed jobs whose status is QUEUED. */
  datatype Gate = Gate(queue: seq<string>, modes: map<string, Mode>, starting: set<string>,
                       active: set<string>, waiting: set<string>, shutting: bool)

  /** A drain loop or a request starting a job; deleting the job detaches the object it still holds. */
  datatype Hold = Hold(id: string, attached: bool)

  datatype World = World(gate: Gate, holds: map<nat, Hold>)

  datatype Op =
    | Enqueue(id: string, mode: Mode)
    | Wait(id: string)
    | Dequeue(id: string)
    | Delete(id: string)
    | Settle(id: string)
    | Shutdown
    | Pick(drain: nat)
    | Admit(drain: nat, id: string)
    | Activate(drain: nat)
    | Finish(drain: nat)

  predicate Distinct(q: seq<string>) {
    forall i, j :: 0 <= i < j < |q| ==> q[i] != q[j]
  }

  /** The queue without one id, in order. */
  function Without(q: seq<string>, id: string): (r: seq<string>) {
    if q == [] then []
    else if q[0] == id then Without(q[1..], id) else [q[0]] + Without(q[1..], id)
  }

  function Enqueued(g: Gate, id: string, mode: Mode): (r: Gate) {
    if id in g.modes then g else g.(queue := g.queue + [id], modes := g.modes[id := mode])
  }

  function Dequeued(g: Gate, id: string): (r: Gate) {
    g.(queue := Without(g.queue, id), modes := g.modes - {id})
  }

  /** The slots in use, counting a job that is both starting and active twice. */
  function InUse(g: Gate): (n: nat) {
    |g.starting| + |g.active|
  }

  predicate HasSlot(g: Gate, limit: int) {
    limit <= 0 || InUse(g) < limit
  }

  predicate Pickable(g: Gate, limit: int) {
    !g.shutting && HasSlot(g, limit) && g.queue != []
  }

  /** One critical section of a drain loop: the head leaves the queue, and starts if it still waits. */
  function Picked(g: Gate): (r: Gate)
    requires g.queue != []
  {
    var id := g.queue[0];
    g.(queue := g.queue[1..], modes := g.modes - {id}, starting := if id in g.waiting then g.starting + {id} else g.starting)
  }

  function Begun(g: Gate, id: string): (r: Gate) {
    g.(starting := g.starting + {id})
  }

  function Detached(holds: map<nat, Hold>, id: string): (r: map<nat, Hold>) {
    map d | d in holds :: if holds[d].id == id then holds[d].(attached := false) else holds[d]
  }

  /** A submitted or resumed job is admitted without the queue: its start takes the lock again,
      and no longer asks for the slot that an earlier critical section found. */
  predicate Enabled(w: World, op: Op, limit: int) {
    match op
    case Pick(d) => d !in w.holds && Pickable(w.gate, limit)
    case Admit(d, id) => d !in w.holds
    case Activate(d) => d in w.holds
    case Finish(d) => d in w.holds
    case _ => true
  }

  function Effect(w: World, op: Op, limit: int): (r: World)
    requires Enabled(w, op, limit)
  {
    var g := w.gate;
    match op
    case Enqueue(id, mode) => w.(gate := Enqueued(g, id, mode))
    case Wait(id) => w.(gate := g.(waiting := g.waiting + {id}, active := g.active - {id}))
    case Dequeue(id) => w.(gate := Dequeued(g, id))
    case Delete(id) =>
      World(Dequeued(g, id).(starting := g.starting - {id}, active := g.active - {id}, waiting := g.waiting - {id}), Detached(w.holds, id))
    case Settle(id) => w.(gate := g.(active := g.active - {id}, waiting := g.waiting - {id}))
    case Shutdown => w.(gate := g.(shutting := true))
    case Pick(d) => World(Picked(g), if g.queue[0] in g.waiting then w.holds[d := Hold(g.queue[0], true)] else w.holds)
    case Admit(d, id) => World(Begun(g, id), w.holds[d := Hold(id, true)])
    case Activate(d) =>
      if w.holds[d].attached then w.(gate := g.(active := g.active + {w.holds[d].id}, waiting := g.waiting - {w.holds[d].id})) else w
    case Finish(d) => World(g.(starting := g.starting - {w.holds[d].id}), w.holds - {d})
  }

  function Apply(w: World, op: Op, limit: int): (r: World) {
    if Enabled(w, op, limit) then Effect(w, op, limit) else w
  }

  function At(w: World, ops: seq<Op>, limit: int, k: nat): (r: World)
    requires k <= |ops|
  {
    if k == 0 then w else Apply(At(w, ops, limit, k - 1), ops[k - 1], limit)
  }

  // ---- The queue ----

  /** Filtering keeps exactly the other ids. */
  lemma {:induction false} WithoutHas(q: seq<string>, id: string, x: string)
    ensures x in Without(q, id) <==> x in q && x != id
  {
    if q != [] {
      WithoutHas(q[1..], id, x);
      assert q == [q[0]] + q[1..];
    }
  }

  lemma {:induction false} WithoutIsDistinct(q: seq<string>, id: string)
    requires Distinct(q)
    ensures Distinct(Without(q, id))
  {
    if q != [] {
      WithoutIsDistinct(q[1..], id);
      WithoutHas(q[1..], id, q[0]);
    }
  }

  lemma {:induction false} WithoutSnoc(q: seq<string>, x: string, id: string)
    ensures Without(q + [x], id) == if x == id then Without(q, id) else Without(q, id) + [x]
  {
    if q == [] {
      assert q + [x] == [x];
    } else {
      assert (q + [x])[1..] == q[1..] + [x];
      WithoutSnoc(q[1..], x, id);
    }
  }

  /** Duplicate-free, and its ids are the keys of the mode map. */
  ghost predicate WellQueued(g: Gate) {
    Distinct(g.queue) && forall x :: x in g.queue <==> x in g.modes
  }

  lemma DequeuedWellQueued(g: Gate, id: string)
    requires WellQueued(g)
    ensures WellQueued(Dequeued(g, id))
  {
    WithoutIsDistinct(g.queue, id);
    forall x ensures x in Without(g.queue, id) <==> x in g.modes - {id} {
      WithoutHas(g.queue, id, x);
    }
  }

  lemma StepKeepsQueue(w: World, op: Op, limit: int)
    requires WellQueued(w.gate)
    ensures WellQueued(Apply(w, op, limit).gate)
  {
    match op
    case Dequeue(id) => DequeuedWellQueued(w.gate, id);
    case Delete(id) => DequeuedWellQueued(w.gate, id);
    case _ =>
  }

  /** Through every run the queue stays duplicate-free and equal to the key set of the mode map. */
  lemma {:induction false} RunKeepsQueue(w: World, ops: seq<Op>, limit: int, k: nat)
    requires WellQueued(w.gate) && k <= |ops|
    ensures WellQueued(At(w, ops, limit, k).gate)
  {
    hide Apply;
    if k > 0 {
      RunKeepsQueue(w, ops, limit, k - 1);
      StepKeepsQueue(At(w, ops, limit, k - 1), ops[k - 1], limit);
    }
  }

  /** `a` waits ahead of `b`. */
  predicate Ahead(q: seq<string>, a: string, b: string) {
    exists i, j :: 0 <= i < j < |q| && q[i] == a && q[j] == b
  }

  lemma {:induction false} WithoutKeepsOrder(q: seq<string>, id: string, a: string, b: string)
    requires Ahead(q, a, b) && a != id && b != id
    ensures Ahead(Without(q, id), a, b)
  {
    var i, j :| 0 <= i < j < |q| && q[i] == a && q[j] == b;
    var rest := q[1..];
    if i > 0 {
      assert rest[i - 1] == a && rest[j - 1] == b;
      WithoutKeepsOrder(rest, id, a, b);
      var k, l :| 0 <= k < l < |Without(rest, id)| && Without(rest, id)[k] == a && Without(rest, id)[l] == b;
      if q[0] != id {
        assert Without(q, id)[k + 1] == a && Without(q, id)[l + 1] == b;
      }
    } else {
      assert rest[j - 1] == b;
      WithoutHas(rest, id, b);
      var l :| 0 <= l < |Without(rest, id)| && Without(rest, id)[l] == b;
      assert Without(q, id)[0] == a && Without(q, id)[l + 1] == b;
    }
  }

  /** A step keeps the order of two jobs that stay queued, and picks neither past the other. */
  lemma StepKeepsOrder(w: World, op: Op, limit: int, a: string, b: string)
    requires WellQueued(w.gate) && Ahead(w.gate.queue, a, b)
    ensures var r := Apply(w, op, limit);
      a in r.gate.queue && b in r.gate.queue ==> Ahead(r.gate.queue, a, b)
    ensures op.Pick? && Enabled(w, op, limit) ==> w.gate.queue[0] != b
  {
    var q := w.gate.queue;
    var i, j :| 0 <= i < j < |q| && q[i] == a && q[j] == b;
    match op
    case Enqueue(id, mode) =>
      assert Ahead(q, a, b) && forall k :: 0 <= k < |q| ==> (q + [id])[k] == q[k];
      assert (q + [id])[i] == a && (q + [id])[j] == b;
    case Dequeue(id) => DequeueOrder(q, id, a, b);
    case Delete(id) => DequeueOrder(q, id, a, b);
    case Pick(d) =>
      if Enabled(w, op, limit) && a in q[1..] {
        assert i > 0;
        assert q[1..][i - 1] == a && q[1..][j - 1] == b;
      }
    case _ =>
  }

  lemma DequeueOrder(q: seq<string>, id: string, a: string, b: string)
    requires Ahead(q, a, b)
    ensures a in Without(q, id) && b in Without(q, id) ==> Ahead(Without(q, id), a, b)
  {
    WithoutHas(q, id, a);
    WithoutHas(q, id, b);
    if a != id && b != id {
      WithoutKeepsOrder(q, id, a, b);
    }
  }

  predicate QueuedThroughout(w: World, ops: seq<Op>, limit: int, k: nat, a: string)
    requires k <= |ops|
  {
    forall i :: 0 <= i <= k ==> a in At(w, ops, limit, i).gate.queue
  }

  /** First in, first out: while both jobs stay queued, the later one is never picked. */
  lemma {:induction false} NoOvertaking(w: World, ops: seq<Op>, limit: int, k: nat, a: string, b: string)
    requires WellQueued(w.gate) && k < |ops| && Ahead(w.gate.queue, a, b)
    requires QueuedThroughout(w, ops, limit, k, a) && QueuedThroughout(w, ops, limit, k, b)
    ensures var d := At(w, ops, limit, k);
      Ahead(d.gate.queue, a, b) && (ops[k].Pick? && Enabled(d, ops[k], limit) ==> d.gate.queue[0] != b)
  {
    hide Apply;
    if k > 0 {
      NoOvertaking(w, ops, limit, k - 1, a, b);
      RunKeepsQueue(w, ops, limit, k - 1);
      StepKeepsOrder(At(w, ops, limit, k - 1), ops[k - 1], limit, a, b);
      assert a in At(w, ops, limit, k).gate.queue && b in At(w, ops, limit, k).gate.queue;
    }
    RunKeepsQueue(w, ops, limit, k);
    StepKeepsOrder(At(w, ops, limit, k), ops[k], limit, a, b);
  }

  // ---- Modes and slots ----

  /** A drain loop may take the head of the queue: nothing is shutting down, and some slot is free. */
  lemma PicksWhen(w: World, d: nat, limit: int)
    ensures Enabled(w, Pick(d), limit) <==>
      d !in w.holds && !w.gate.shutting && w.gate.queue != [] && (limit > 0 ==> |w.gate.starting| + |w.gate.active| < limit)
  {
  }

  predicate Taken(w: World, op: Op, limit: int, x: string) {
    op.Pick? && Enabled(w, op, limit) && w.gate.queue[0] == x
  }

  /** A job's mode is that of the enqueue that queued it, and is forgotten when it leaves the queue. */
  lemma ModeAfterStep(w: World, op: Op, limit: int, x: string)
    ensures Lookup(Apply(w, op, limit).gate.modes, x) == (
      if op.Enqueue? && op.id == x && x !in w.gate.modes then Some(op.mode)
      else if ((op.Dequeue? || op.Delete?) && op.id == x) || Taken(w, op, limit, x) then None
      else Lookup(w.gate.modes, x))
  {
  }

  /** The mode a queued job will be started in was asked for by an enqueue of the run, which found it
      not queued, and the job has been queued with it ever since. */
  lemma {:induction false} ModeWasEnqueued(w: World, ops: seq<Op>, limit: int, i: nat, k: nat, x: string) returns (e: nat)
    requires i <= k <= |ops| && x !in At(w, ops, limit, i).gate.modes && x in At(w, ops, limit, k).gate.modes
    ensures i <= e < k && ops[e] == Enqueue(x, At(w, ops, limit, k).gate.modes[x]) && x !in At(w, ops, limit, e).gate.modes
    ensures forall j :: e < j <= k ==> Lookup(At(w, ops, limit, j).gate.modes, x) == Lookup(At(w, ops, limit, k).gate.modes, x)
  {
    hide Apply;
    ModeAfterStep(At(w, ops, limit, k - 1), ops[k - 1], limit, x);
    if x in At(w, ops, limit, k - 1).gate.modes {
      e := ModeWasEnqueued(w, ops, limit, i, k - 1, x);
    } else {
      e := k - 1;
    }
  }

  predicate Activates(w: World, op: Op, x: string) {
    op.Activate? && op.drain in w.holds && w.holds[op.drain] == Hold(x, true)
  }

  /** Which jobs are starting, active or waiting after a step. */
  lemma SlotsAfterStep(w: World, op: Op, limit: int, x: string)
    ensures var g, r := w.gate, Apply(w, op, limit).gate;
      && (x in r.starting <==>
            if (Taken(w, op, limit, x) && x in g.waiting) || (op.Admit? && op.drain !in w.holds && op.id == x) then true
            else if (op.Delete? && op.id == x) || (op.Finish? && op.drain in w.holds && w.holds[op.drain].id == x) then false
            else x in g.starting)
      && (x in r.active <==>
            if Activates(w, op, x) then true
            else if (op.Wait? || op.Delete? || op.Settle?) && op.id == x then false else x in g.active)
      && (x in r.waiting <==>
            if op.Wait? && op.id == x then true
            else if Activates(w, op, x) || ((op.Delete? || op.Settle?) && op.id == x) then false else x in g.waiting)
      && (r.shutting <==> g.shutting || op.Shutdown?)
  {
  }

  /** A loop holds the job it took while it waited, a request the job it was admitted for; a deleted
      job's start is detached from it, and its end lets go. */
  lemma HoldsAfterStep(w: World, op: Op, limit: int, d: nat)
    ensures Lookup(Apply(w, op, limit).holds, d) == (
      if op == Pick(d) && Enabled(w, op, limit) && w.gate.queue[0] in w.gate.waiting then Some(Hold(w.gate.queue[0], true))
      else if op.Admit? && op.drain == d && d !in w.holds then Some(Hold(op.id, true))
      else if op == Finish(d) || d !in w.holds then None
      else if op.Delete? && w.holds[d].id == op.id then Some(Hold(op.id, false))
      else Some(w.holds[d]))
  {
  }

  // ---- A waiting job has a place ----

  /** A job whose status is QUEUED waits in the queue or is being started. */
  predicate Placed(w: World, x: string) {
    x in w.gate.waiting ==> x in w.gate.queue || x in w.gate.starting
  }

  /** The status is written for a job that is in neither place; a queued job is taken out while
      it still waits; or a start ends with the job still waiting and not queued again. */
  predicate Strands(w: World, op: Op, x: string) {
    match op
    case Wait(id) => id == x && x !in w.gate.queue && x !in w.gate.starting
    case Dequeue(id) => id == x && x in w.gate.waiting && x !in w.gate.starting
    case Finish(d) => d in w.holds && w.holds[d].id == x && x in w.gate.waiting && x !in w.gate.queue
    case _ => false
  }

  /** Exactly those steps leave a job waiting outside both places. */
  lemma PlaceLostExactlyBy(w: World, op: Op, limit: int, x: string)
    requires Placed(w, x)
    ensures Placed(Apply(w, op, limit), x) <==> !Strands(w, op, x)
  {
    var q := w.gate.queue;
    match op
    case Dequeue(id) => WithoutHas(q, id, x);
    case Delete(id) => WithoutHas(q, id, x);
    case Pick(d) =>
      if Enabled(w, op, limit) {
        assert q == [q[0]] + q[1..];
      }
    case _ =>
  }

  ghost predicate NeverStrands(w: World, ops: seq<Op>, limit: int, i: nat, k: nat, x: string)
    requires k <= |ops|
  {
    forall m :: i <= m < k ==> !Strands(At(w, ops, limit, m), ops[m], x)
  }

  /** So a placed job stays placed through every run without such a step. */
  lemma {:induction false} StaysPlaced(w: World, ops: seq<Op>, limit: int, i: nat, k: nat, x: string)
    requires i <= k <= |ops| && Placed(At(w, ops, limit, i), x) && NeverStrands(w, ops, limit, i, k, x)
    ensures Placed(At(w, ops, limit, k), x)
  {
    hide Apply;
    if i < k {
      assert NeverStrands(w, ops, limit, i, k - 1, x);
      StaysPlaced(w, ops, limit, i, k - 1, x);
      PlaceLostExactlyBy(At(w, ops, limit, k - 1), ops[k - 1], limit, x);
    }
  }

  /** Status first: whatever happened since the status was written, the enqueue gives the job its
      place, and it keeps it until a cancel or an unfinished start. */
  lemma {:induction false} StatusBeforeEnqueue(w: World, ops: seq<Op>, limit: int, i: nat, k: nat, x: string, mode: Mode)
    requires WellQueued(w.gate) && i < k <= |ops| && ops[i] == Enqueue(x, mode)
    requires NeverStrands(w, ops, limit, i + 1, k, x)
    ensures Placed(At(w, ops, limit, k), x)
  {
    RunKeepsQueue(w, ops, limit, i);
    assert x in Enqueued(At(w, ops, limit, i).gate, x, mode).queue;
    StaysPlaced(w, ops, limit, i + 1, k, x);
  }

  /** One critical section: with nothing between them, the enqueue and the status leave every
      job placed, in either order. */
  lemma EnqueueAndStatusTogether(w: World, limit: int, id: string, mode: Mode, x: string)
    requires WellQueued(w.gate) && Placed(w, x)
    ensures Placed(Apply(Apply(w, Enqueue(id, mode), limit), Wait(id), limit), x)
    ensures Placed(Apply(Apply(w, Wait(id), limit), Enqueue(id, mode), limit), x)
  {
    assert id in Enqueued(w.gate, id, mode).queue;
  }

  /** The source enqueues, for want of a slot, and writes the status afterwards. The status then
      strands the job exactly when the job has left the queue in between without starting, which
      this run shows: a drain loop drops a job that does not wait yet. */
  lemma DroppedBeforeWaiting(w: World, job: string, running: string)
    requires w == World(Gate([], map[], {}, {running}, {}, false), map[]) && job != running
    ensures !HasSlot(w.gate, 1)
    ensures var ops := [Enqueue(job, Initial), Settle(running), Pick(0), Wait(job)];
      Strands(At(w, ops, 1, 3), ops[3], job) && !Placed(At(w, ops, 1, 4), job)
  {
    var ops := [Enqueue(job, Initial), Settle(running), Pick(0), Wait(job)];
    var queued := w.gate.(queue := [job], modes := map[job := Initial]);
    assert At(w, ops, 1, 1) == w.(gate := queued);
    assert {running} - {running} == {};
    assert At(w, ops, 1, 2) == w.(gate := queued.(active := {}));
    assert At(w, ops, 1, 3) == w.(gate := Picked(queued.(active := {})));
    assert At(w, ops, 1, 4) == Apply(At(w, ops, 1, 3), ops[3], 1);
  }

  // ---- The limit ----

  /** Each held job is counted as starting, and no two loops or requests hold the same job. */
  predicate Covered(w: World) {
    && (forall d :: d in w.holds && w.holds[d].attached ==> w.holds[d].id in w.gate.starting)
    && forall d, e :: d in w.holds && e in w.holds && w.holds[d].id == w.holds[e].id ==> d == e
  }

  predicate Takes(w: World, op: Op, limit: int, x: string) {
    && Enabled(w, op, limit)
    && ((op.Pick? && w.gate.queue[0] in w.gate.waiting && w.gate.queue[0] == x) || (op.Admit? && op.id == x))
  }

  /** A job is taken that another loop or request has not let go of. */
  predicate Retakes(w: World, op: Op, limit: int) {
    exists d :: d in w.holds && Takes(w, op, limit, w.holds[d].id)
  }

  /** That is the only step that leaves a started job uncovered. */
  lemma CoverLostOnlyBy(w: World, op: Op, limit: int)
    requires Covered(w)
    ensures Covered(Apply(w, op, limit)) <==> !Retakes(w, op, limit)
  {
    var r := Apply(w, op, limit);
    if Retakes(w, op, limit) {
      var d :| d in w.holds && Takes(w, op, limit, w.holds[d].id);
      assert r.holds[d].id == r.holds[op.drain].id && d != op.drain;
    }
  }

  /** A loop that lets go of a job it still counts for gives back one slot, keeps every other loop
      covered, and strands nobody unless the job was left waiting. */
  lemma FinishFreesOneSlot(w: World, d: nat, limit: int, x: string)
    requires Covered(w) && d in w.holds && w.holds[d].attached
    requires Placed(w, x) && (x == w.holds[d].id ==> x !in w.gate.waiting || x in w.gate.queue)
    ensures var r := Apply(w, Finish(d), limit);
      InUse(r.gate) + 1 == InUse(w.gate) && Covered(r) && Placed(r, x) && r.gate.queue == w.gate.queue
  {
    var id := w.holds[d].id;
    assert w.gate.starting == (w.gate.starting - {id}) + {id};
  }

  /** Distinct jobs on a slot. */
  function Load(g: Gate): (n: nat) {
    |g.starting + g.active|
  }

  lemma Smaller(a: set<string>, b: set<string>)
    requires a <= b
    ensures |a| <= |b|
  {
    assert b == a + (b - a);
  }

  lemma OneMore(s: set<string>, id: string)
    ensures |s + {id}| == if id in s then |s| else |s| + 1
  {
    if id in s {
      assert s + {id} == s;
    }
  }

  predicate Within(g: Gate, limit: int) {
    limit <= 0 || Load(g) <= limit
  }

  /** A job that is on no slot becomes active, or is admitted, while every slot is taken. */
  predicate Oversteps(w: World, op: Op, limit: int) {
    && 0 < limit == Load(w.gate) && Enabled(w, op, limit)
    && ((op.Activate? && w.holds[op.drain].attached && w.holds[op.drain].id !in w.gate.starting + w.gate.active)
        || (op.Admit? && op.id !in w.gate.starting + w.gate.active))
  }

  /** Exactly those steps lift the load past the limit. */
  lemma LimitExceededExactlyWhen(w: World, op: Op, limit: int)
    requires Within(w.gate, limit)
    ensures !Within(Apply(w, op, limit).gate, limit) <==> Oversteps(w, op, limit)
  {
    var g, r := w.gate, Apply(w, op, limit).gate;
    if op.Pick? && Enabled(w, op, limit) {
      var one := {g.queue[0]};
      Smaller(r.starting + r.active, g.starting + g.active + one);
    } else if op.Activate? && op.drain in w.holds && w.holds[op.drain].attached {
      var id := w.holds[op.drain].id;
      assert r.starting + r.active == (g.starting + g.active) + {id};
      OneMore(g.starting + g.active, id);
    } else if op.Admit? && Enabled(w, op, limit) {
      assert r.starting + r.active == (g.starting + g.active) + {op.id};
      OneMore(g.starting + g.active, op.id);
    } else {
      Smaller(r.starting + r.active, g.starting + g.active);
    }
  }

  ghost predicate NeverRetakes(w: World, ops: seq<Op>, limit: int, n: nat)
    requires n <= |ops|
  {
    forall k :: 0 <= k < n ==> !Retakes(At(w, ops, limit, k), ops[k], limit)
  }

  /** No request is admitted to a slot that has been taken since it was checked. */
  ghost predicate NeverLate(w: World, ops: seq<Op>, limit: int, n: nat)
    requires n <= |ops|
  {
    forall k :: 0 <= k < n && ops[k].Admit? ==> !Oversteps(At(w, ops, limit, k), ops[k], limit)
  }

  /** Any number of concurrent drain loops and direct starts keep the load within the limit once it
      holds, as long as none takes a job another has not let go of and no direct start is late. */
  lemma {:induction false} LimitKept(w: World, ops: seq<Op>, limit: int, k: nat)
    requires k <= |ops| && Covered(w) && Within(w.gate, limit)
    requires NeverRetakes(w, ops, limit, k) && NeverLate(w, ops, limit, k)
    ensures Covered(At(w, ops, limit, k)) && Within(At(w, ops, limit, k).gate, limit)
  {
    hide Apply;
    if k > 0 {
      assert NeverRetakes(w, ops, limit, k - 1) && NeverLate(w, ops, limit, k - 1);
      LimitKept(w, ops, limit, k - 1);
      var d := At(w, ops, limit, k - 1);
      CoverLostOnlyBy(d, ops[k - 1], limit);
      LimitExceededExactlyWhen(d, ops[k - 1], limit);
    }
  }

  /** A start in the critical section of its check is never late. */
  lemma CheckedStartIsNotLate(w: World, d: nat, id: string, limit: int)
    requires HasSlot(w.gate, limit)
    ensures !Oversteps(w, Admit(d, id), limit)
  {
  }

  /** But the source checks and starts apart: whenever one slot is left, two jobs can both find it
      free, and their starts exceed the limit. */
  lemma OneSlotForTwo(w: World, limit: int, d: nat, a: string, e: nat, b: string)
    requires Within(w.gate, limit) && 0 < limit == Load(w.gate) + 1
    requires d != e && d !in w.holds && e !in w.holds
    requires a != b && a !in w.gate.starting + w.gate.active && b !in w.gate.starting + w.gate.active
    ensures w.gate.starting !! w.gate.active ==> HasSlot(w.gate, limit)
    ensures var ops := [Admit(d, a), Admit(e, b)];
      !NeverLate(w, ops, limit, 2) && Within(At(w, ops, limit, 1).gate, limit) && !Within(At(w, ops, limit, 2).gate, limit)
  {
    var ops := [Admit(d, a), Admit(e, b)];
    var first := At(w, ops, limit, 1);
    assert first == Apply(At(w, ops, limit, 0), ops[0], limit);
    LimitExceededExactlyWhen(w, ops[0], limit);
    assert first.gate.starting + first.gate.active == (w.gate.starting + w.gate.active) + {a};
    LimitExceededExactlyWhen(first, ops[1], limit);
    assert At(w, ops, limit, 2) == Apply(first, ops[1], limit);
    assert Oversteps(At(w, ops, limit, 1), ops[1], limit);
  }

  /** A request is admitted exactly when its check finds a slot, and queued otherwise. */
  predicate Checked(w: World, op: Op, limit: int) {
    (op.Admit? ==> HasSlot(w.gate, limit)) && (op.Enqueue? ==> !HasSlot(w.gate, limit))
  }

  ghost predicate AllChecked(w: World, ops: seq<Op>, limit: int) {
    forall k :: 0 <= k < |ops| ==> Checked(At(w, ops, limit, k), ops[k], limit)
  }

  ghost predicate Retaken(w: World, ops: seq<Op>, limit: int) {
    exists k :: 0 <= k < |ops| && Retakes(At(w, ops, limit, k), ops[k], limit)
  }

  /** A run whose requests are all checked leads from `w` to `v`. */
  ghost predicate Leads(w: World, ops: seq<Op>, limit: int, v: World) {
    AllChecked(w, ops, limit) && At(w, ops, limit, |ops|) == v
  }

  lemma {:induction false} AtPrefix(w: World, ops: seq<Op>, op: Op, limit: int, k: nat)
    requires k <= |ops|
    ensures At(w, ops + [op], limit, k) == At(w, ops, limit, k)
  {
    hide Apply;
    if k > 0 {
      AtPrefix(w, ops, op, limit, k - 1);
    }
  }

  /** One more step of such a run. */
  lemma {:induction false} Then(w: World, ops: seq<Op>, v: World, op: Op, limit: int) returns (more: seq<Op>, r: World)
    requires Leads(w, ops, limit, v) && Checked(v, op, limit)
    ensures more == ops + [op] && r == Apply(v, op, limit) && Leads(w, more, limit, r)
    ensures Retaken(w, ops, limit) || Retakes(v, op, limit) ==> Retaken(w, more, limit)
  {
    hide Apply, Checked, Retakes;
    more, r := ops + [op], Apply(v, op, limit);
    forall k | 0 <= k <= |ops| ensures At(w, more, limit, k) == At(w, ops, limit, k) {
      AtPrefix(w, ops, op, limit, k);
    }
    forall k | 0 <= k < |more| ensures Checked(At(w, more, limit, k), more[k], limit) {
    }
    if Retaken(w, ops, limit) {
      var k :| 0 <= k < |ops| && Retakes(At(w, ops, limit, k), ops[k], limit);
      assert Retakes(At(w, more, limit, k), more[k], limit);
    } else if Retakes(v, op, limit) {
      assert Retakes(At(w, more, limit, |ops|), more[|ops|], limit);
    }
  }

  /** Some jobs queued, some on a slot or held, and some with a QUEUED status. */
  function Scene(queue: seq<string>, starting: set<string>, active: set<string>, holds: map<nat, Hold>, jobs: set<string>): (w: World) {
    World(Gate(queue, map id | id in queue :: Initial, starting, active, jobs, false), holds)
  }

  /** A request finds a slot, and its job becomes active. */
  lemma {:induction false} Begins(w: World, p: seq<Op>, u: World, starting: set<string>, h: map<nat, Hold>, d: nat, id: string) returns (ops: seq<Op>, v: World)
    requires Leads(w, p, 2, u) && u == Scene([], starting, {}, h, {}) && d !in h && |starting| < 2
    ensures Leads(w, ops, 2, v) && v == Scene([], starting + {id}, {id}, h[d := Hold(id, true)], {})
  {
    hide Leads, Retaken;
    ops, v := Then(w, p, u, Admit(d, id), 2);
    ops, v := Then(w, ops, v, Activate(d), 2);
  }

  lemma {:induction false} Ends(w: World, p: seq<Op>, u: World, starting: set<string>, active: set<string>, h: map<nat, Hold>, op: Op) returns (ops: seq<Op>, v: World)
    requires Leads(w, p, 2, u) && u == Scene([], starting, active, h, {}) && (op.Settle? || (op.Finish? && op.drain in h))
    ensures Leads(w, ops, 2, v)
    ensures v == if op.Settle? then Scene([], starting, active - {op.id}, h, {}) else Scene([], starting - {h[op.drain].id}, active, h - {op.drain}, {})
  {
    hide Leads, Retaken;
    ops, v := Then(w, p, u, op, 2);
  }

  /** `a` settles while its start still holds it, and `x` takes the second slot. */
  lemma {:induction false} SlotsFill(w: World, a: string, x: string) returns (ops: seq<Op>, v: World)
    requires a != x && w == Scene([], {}, {}, map[], {})
    ensures Leads(w, ops, 2, v) && v == Scene([], {a}, {x}, map[0 := Hold(a, true)], {})
  {
    assert Leads(w, [], 2, w);
    hide Leads, Scene;
    var h := map[0 := Hold(a, true)];
    ops, v := Begins(w, [], w, {}, map[], 0, a);
    ops, v := Ends(w, ops, v, {} + {a}, {a}, map[][0 := Hold(a, true)], Settle(a));
    assert {} + {a} == {a} && {a} - {a} == {} && map[][0 := Hold(a, true)] == h;
    ops, v := Begins(w, ops, v, {a}, h, 5, x);
    ops, v := Ends(w, ops, v, {a} + {x}, {x}, h[5 := Hold(x, true)], Finish(5));
    assert h[5 := Hold(x, true)] - {5} == h && ({a} + {x}) - {x} == {a};
  }

  lemma {:induction false} Joins(w: World, p: seq<Op>, u: World, queue: seq<string>, a: string, x: string, h: map<nat, Hold>, jobs: set<string>, id: string)
    returns (ops: seq<Op>, v: World)
    requires Leads(w, p, 2, u) && u == Scene(queue, {a}, {x}, h, jobs) && id !in queue && id != x
    ensures Leads(w, ops, 2, v) && v == Scene(queue + [id], {a}, {x}, h, jobs + {id})
  {
    hide Leads, Retaken;
    ops, v := Then(w, p, u, Enqueue(id, Initial), 2);
    ops, v := Then(w, ops, v, Wait(id), 2);
  }

  /** Then `a` is resumed, and it and two more jobs queue for want of a slot. */
  lemma {:induction false} JobsQueue(w: World, p: seq<Op>, u: World, a: string, b: string, c: string, x: string, h: map<nat, Hold>) returns (ops: seq<Op>, v: World)
    requires a != b && a != c && b != c && x !in {a, b, c}
    requires Leads(w, p, 2, u) && u == Scene([], {a}, {x}, h, {})
    ensures Leads(w, ops, 2, v) && v == Scene([a, b, c], {a}, {x}, h, {a, b, c})
  {
    hide Scene, Leads;
    ops, v := Joins(w, p, u, [], a, x, h, {}, a);
    assert [] + [a] == [a] && {} + {a} == {a};
    ops, v := Joins(w, ops, v, [a], a, x, h, {a}, b);
    assert [a] + [b] == [a, b] && {a} + {b} == {a, b};
    ops, v := Joins(w, ops, v, [a, b], a, x, h, {a, b}, c);
    assert [a, b] + [c] == [a, b, c] && {a, b} + {c} == {a, b, c};
  }

  /** A loop finds a slot and takes the first job. */
  lemma {:induction false} Picks(w: World, p: seq<Op>, u: World, id: string, rest: seq<string>, starting: set<string>, h: map<nat, Hold>, jobs: set<string>, d: nat)
    returns (ops: seq<Op>, v: World)
    requires Leads(w, p, 2, u) && u == Scene([id] + rest, starting, {}, h, jobs)
    requires id !in rest && id in jobs && d !in h && |starting| < 2
    ensures Leads(w, ops, 2, v) && v == Scene(rest, starting + {id}, {}, h[d := Hold(id, true)], jobs)
    ensures Retaken(w, p, 2) || (exists e :: e in h && h[e].id == id) ==> Retaken(w, ops, 2)
  {
    hide Leads, Retaken;
    assert ([id] + rest)[1..] == rest;
    if e :| e in h && h[e].id == id {
      assert Takes(u, Pick(d), 2, u.holds[e].id);
    }
    ops, v := Then(w, p, u, Pick(d), 2);
  }

  /** When `x` settles, a loop takes `a` a second time, and the first start lets go of it. */
  lemma {:induction false} TakenAgain(w: World, p: seq<Op>, u: World, a: string, b: string, c: string, x: string) returns (ops: seq<Op>, v: World)
    requires a != b && a != c && b != c && x !in {a, b, c}
    requires Leads(w, p, 2, u) && u == Scene([a, b, c], {a}, {x}, map[0 := Hold(a, true)], {a, b, c})
    ensures Leads(w, ops, 2, v) && v == Scene([b, c], {}, {}, map[1 := Hold(a, true)], {a, b, c})
    ensures Retaken(w, ops, 2)
  {
    hide Leads, Retaken;
    var h, jobs := map[0 := Hold(a, true)], {a, b, c};
    assert {x} - {x} == {} && jobs - {x} == jobs && [a] + [b, c] == [a, b, c];
    ops, v := Then(w, p, u, Settle(x), 2);
    assert h[0].id == a;
    ops, v := Picks(w, ops, v, a, [b, c], {a}, h, jobs, 1);
    assert {a} + {a} == {a} && {a} - {a} == {} && h[1 := Hold(a, true)] - {0} == map[1 := Hold(a, true)];
    ops, v := Then(w, ops, v, Finish(0), 2);
  }

  /** Two more loops find a slot, and all three jobs come to run. */
  lemma {:induction false} ThreeRun(w: World, p: seq<Op>, u: World, a: string, b: string, c: string) returns (ops: seq<Op>, v: World)
    requires a != b && a != c && b != c && Retaken(w, p, 2)
    requires Leads(w, p, 2, u) && u == Scene([b, c], {}, {}, map[1 := Hold(a, true)], {a, b, c})
    ensures Leads(w, ops, 2, v) && Retaken(w, ops, 2) && !Within(v.gate, 2)
  {
    hide Leads, Retaken;
    var h := map[1 := Hold(a, true)];
    assert [b] + [c] == [b, c] && [c] + [] == [c];
    ops, v := Picks(w, p, u, b, [c], {}, h, {a, b, c}, 2);
    ops, v := Picks(w, ops, v, c, [], {} + {b}, h[2 := Hold(b, true)], {a, b, c}, 3);
    Exceeds(v, a, b, c);
    hide Scene;
    ops, v := Then(w, ops, v, Activate(1), 2);
  }

  lemma Exceeds(w: World, a: string, b: string, c: string)
    requires a != b && a != c && b != c
    requires w.gate.starting == {} + {b} + {c} && 1 in w.holds && w.holds[1] == Hold(a, true)
    ensures !Within(Apply(w, Activate(1), 2).gate, 2)
  {
    var r := Apply(w, Activate(1), 2).gate;
    Smaller({a, b, c}, r.starting + r.active);
  }

  /** The guard matters: from an empty gate with a limit of two, when every request is checked, a
      job resumed before its first start has let go of it loses its place in `starting`, and
      three jobs come to run at once. */
  lemma {:induction false} RetakingBreaksTheLimit(w: World, a: string, b: string, c: string, x: string) returns (ops: seq<Op>)
    requires w == World(Gate([], map[], {}, {}, {}, false), map[])
    requires a != b && a != c && b != c && x !in {a, b, c}
    ensures AllChecked(w, ops, 2) && Retaken(w, ops, 2) && !Within(At(w, ops, 2, |ops|).gate, 2)
  {
    hide Retaken, AllChecked;
    var v: World;
    ops, v := SlotsFill(w, a, x);
    ops, v := JobsQueue(w, ops, v, a, b, c, x, map[0 := Hold(a, true)]);
    ops, v := TakenAgain(w, ops, v, a, b, c, x);
    ops, v := ThreeRun(w, ops, v, a, b, c);
  }

  // ---- The manager's fields ----

  datatype Status = Created | Queued | Pending | Running | Pausing | Paused | Stopped | Failed | Done

  /** A managed job, with what decides whether it can hold a slot: the gate applies to it, this
      worker has its lease, and its progress has not released the slot. */
  datatype Job = Job(status: Status, gated: bool, leased: bool, released: bool)

  predicate Counts(j: Job) {
    j.gated && j.leased && (j.status == Pending || j.status == Running || j.status == Pausing) && !j.released
  }

  lemma WithoutNext(q: seq<string>, k: nat, id: string)
    requires k < |q|
    ensures Without(q[..k + 1], id) == if q[k] == id then Without(q[..k], id) else Without(q[..k], id) + [q[k]]
  {
    assert q[..k + 1] == q[..k] + [q[k]];
    WithoutSnoc(q[..k], q[k], id);
  }

  lemma KeepsOneMore(s: seq<string>, lo: nat, kept: nat, id: string)
    requires lo <= kept < |s|
    ensures s[kept := id][lo..kept + 1] == s[lo..kept] + [id]
  {
  }

  /** Keep a window's other ids, in place, behind the reading position. */
  method Filter(a: array<string>, lo: nat, hi: nat, id: string) returns (kept: nat)
    requires lo <= hi <= a.Length
    modifies a
    ensures lo <= kept <= hi && a[lo..kept] == Without(old(a[lo..hi]), id)
  {
    ghost var s, q := a[..], a[lo..hi];
    kept := lo;
    assert Without(q[..0], id) == [];
    hide Without;
    for i := lo to hi
      invariant lo <= kept <= i && a[..] == s && |s| == a.Length
      invariant s[lo..kept] == Without(q[..i - lo], id)
      invariant forall k :: i <= k < hi ==> s[k] == q[k - lo]
    {
      WithoutNext(q, i - lo, id);
      var queued := a[i];
      assert queued == s[i];
      if queued != id {
        a[kept] := queued;
        assert a[..] == s[kept := queued];
        KeepsOneMore(s, lo, kept, queued);
        s, kept := a[..], kept + 1;
      }
    }
    assert q[..hi - lo] == q && a[lo..kept] == s[lo..kept];
  }

  datatype Outcome = Stop | Skip | Start(id: string, mode: Mode)

  class Manager {
    /** The queue is the window `lo..hi` of its backing array. */
    var buffer: array<string>
    var lo: nat
    var hi: nat
    var modes: map<string, Mode>
    var starting: set<string>
    var jobs: map<string, Job>
    var shutting: bool
    const limit: int

    constructor (limit: int)
      ensures Valid() && View() == Gate([], map[], {}, {}, {}, false) && this.limit == limit
      ensures fresh(buffer)
    {
      buffer := new string[0];
      lo, hi, modes, starting, jobs, shutting := 0, 0, map[], {}, map[], false;
      this.limit := limit;
    }

    ghost predicate Valid()
      reads this
    {
      lo <= hi <= buffer.Length
    }

    ghost function View(): (g: Gate)
      requires Valid()
      reads this, buffer
    {
      Gate(buffer[lo..hi], modes, starting, (set id | id in jobs && Counts(jobs[id])),
           (set id | id in jobs && jobs[id].status == Queued), shutting)
    }

    method ActiveSnapshotJobs() returns (n: nat)
      requires Valid()
      ensures n == InUse(View())
      ensures n == |starting| + |set id | id in jobs && jobs[id].gated && jobs[id].leased && !jobs[id].released
        && jobs[id].status in {Status.Pending, Status.Running, Status.Pausing}|
    {
      n := |starting|;
      ghost var counted: set<string> := {};
      var rest := jobs.Keys;
      while rest != {}
        invariant rest <= jobs.Keys
        invariant counted == set id | id in jobs && id !in rest && Counts(jobs[id])
        invariant n == |starting| + |counted|
        decreases rest
      {
        var id :| id in rest;
        rest := rest - {id};
        if Counts(jobs[id]) {
          n, counted := n + 1, counted + {id};
        }
      }
      assert counted == View().active;
      assert counted == set id | id in jobs && jobs[id].gated && jobs[id].leased && !jobs[id].released
        && jobs[id].status in {Status.Pending, Status.Running, Status.Pausing};
    }

    method HasSnapshotSlot() returns (ok: bool)
      requires Valid()
      ensures ok == HasSlot(View(), limit)
    {
      if limit <= 0 {
        return true;
      }
      var n := ActiveSnapshotJobs();
      ok := n < limit;
    }

    /** Append, moving to a larger array when the window reaches the end of this one. */
    method Append(id: string)
      requires Valid()
      modifies this`buffer, this`lo, this`hi, buffer
      ensures Valid() && (buffer == old(buffer) || fresh(buffer))
      ensures View() == old(View()).(queue := old(View()).queue + [id])
    {
      if hi == buffer.Length {
        var n := hi - lo;
        var bigger := new string[2 * n + 1];
        for i := 0 to n
          invariant buffer == old(buffer) && lo == old(lo) && hi == old(hi) && buffer[..] == old(buffer[..])
          invariant bigger[..i] == buffer[lo..lo + i]
        {
          bigger[i] := buffer[lo + i];
        }
        buffer, lo, hi := bigger, 0, n;
      }
      buffer[hi] := id;
      hi := hi + 1;
    }

    method EnqueueSnapshotJob(id: string, mode: Mode)
      requires Valid()
      modifies this`buffer, this`lo, this`hi, this`modes, buffer
      ensures Valid() && (buffer == old(buffer) || fresh(buffer))
      ensures View() == Enqueued(old(View()), id, mode)
    {
      if id in modes {
        return;
      }
      Append(id);
      modes := modes[id := mode];
    }

    /** Filter the queue in place, writing over the window it reads. */
    method RemoveSnapshotQueue(id: string)
      requires Valid()
      modifies this`hi, this`modes, buffer
      ensures Valid() && buffer == old(buffer)
      ensures View() == Dequeued(old(View()), id)
    {
      modes := modes - {id};
      hi := Filter(buffer, lo, hi, id);
    }

    /** The locked part of a drain loop's turn. */
    method PickNext() returns (o: Outcome)
      requires Valid() && WellQueued(View())
      modifies this`lo, this`modes, this`starting
      ensures Valid() && buffer == old(buffer)
      ensures o.Stop? <==> !old(Pickable(View(), limit))
      ensures View() == if o.Stop? then old(View()) else Picked(old(View()))
      ensures o.Start? <==> old(Pickable(View(), limit) && View().queue[0] in View().waiting)
      ensures o.Start? ==> o.id == old(View().queue[0]) && o.mode == old(View().modes[View().queue[0]])
    {
      var free := HasSnapshotSlot();
      if shutting || !free || lo == hi {
        return Stop;
      }
      var id := buffer[lo];
      assert id == View().queue[0] && id in View().queue;
      var mode := modes[id];
      assert buffer[lo + 1..hi] == buffer[lo..hi][1..];
      lo := lo + 1;
      modes := modes - {id};
      if id !in jobs || jobs[id].status != Queued {
        return Skip;
      }
      starting := starting + {id};
      o := Start(id, mode);
    }

    /** The check of a submit or resume request. */
    method QueueOrAdmit(id: string, mode: Mode, gated: bool) returns (queued: bool)
      requires Valid()
      modifies this`buffer, this`lo, this`hi, this`modes, buffer
      ensures Valid() && (buffer == old(buffer) || fresh(buffer))
      ensures queued <==> gated && !old(HasSlot(View(), limit))
      ensures View() == if queued then Enqueued(old(View()), id, mode) else old(View())
    {
      queued := false;
      if gated {
        var free := HasSnapshotSlot();
        queued := !free;
      }
      if queued {
        EnqueueSnapshotJob(id, mode);
      }
    }

    method BeginStart(id: string)
      requires Valid()
      modifies this`starting
      ensures Valid() && buffer == old(buffer)
      ensures forall holds: map<nat, Hold>, d :: d !in holds ==>
        World(View(), holds[d := Hold(id, true)]) == Apply(World(old(View()), holds), Admit(d, id), limit)
    {
      starting := starting + {id};
    }

    method FinishStart(id: string)
      requires Valid()
      modifies this`starting
      ensures forall holds: map<nat, Hold>, d :: d in holds && holds[d].id == id ==>
        View() == Apply(World(old(View()), holds), Finish(d), limit).gate
    {
      starting := starting - {id};
    }

    method DeleteJob(id: string) returns (ok: bool)
      requires Valid()
      modifies this`hi, this`modes, this`starting, this`jobs, buffer
      ensures Valid() && buffer == old(buffer) && ok == (id in old(jobs))
      ensures ok ==> View() == Apply(World(old(View()), map[]), Delete(id), limit).gate
      ensures !ok ==> View() == old(View())
    {
      ok := id in jobs;
      if ok {
        jobs := jobs - {id};
        ghost var before := View();
        assert before.active == old(View()).active - {id} && before.waiting == old(View()).waiting - {id};
        RemoveSnapshotQueue(id);
        starting := starting - {id};
      }
    }
  }
}
