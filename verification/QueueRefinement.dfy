/**
 * The durable queue (src/queue/sqlite-backend.js) against the in-memory one
 * (src/task-queue.js): the same calls get the same answers.
 */
module QueueRefinement {
  import opened Prelude
  import opened LeaseTable
  import S = SqliteQueue
  import T = TaskQueues

  /** A call made of both queues. `choice` is what the durable queue's SELECTs return. */
  datatype Call =
    | Enqueue(env: Envelope, now: int)
    | Dequeue(worker: T.Worker, choice: Option<Id>, now: int)

  function TaskOf(e: Envelope): T.Task { T.Task(e.id, e.priority, e.affinity) }

  // ---- The two queues side by side ----

  function MemoryStep(m: T.State, c: Call): T.State {
    match c
    case Enqueue(e, _) => T.Enqueue(m, TaskOf(e))
    case Dequeue(w, _, _) => T.Dequeue(m, w)
  }

  function DurableStep(d: S.State, c: Call): S.State {
    match c
    case Enqueue(e, now) => S.AfterEnqueue(d, e, now)
    case Dequeue(w, choice, now) => S.AfterDequeue(d, w, choice, now)
  }

  function MemoryAnswer(m: T.State, w: T.Worker): Option<Id> {
    var k := T.Select(m.queue, w, m.settled);
    if k < |m.queue| then Some(m.queue[k].task.id) else None
  }

  function MemoryAnswers(m: T.State, calls: seq<Call>): seq<Option<Id>>
    decreases |calls|
  {
    if calls == [] then []
    else
      (if calls[0].Dequeue? then [MemoryAnswer(m, calls[0].worker)] else [])
      + MemoryAnswers(MemoryStep(m, calls[0]), calls[1..])
  }

  function DurableAnswers(d: S.State, calls: seq<Call>): seq<Option<Id>>
    decreases |calls|
  {
    if calls == [] then []
    else
      (if calls[0].Dequeue? then [S.Handed(d, calls[0].choice)] else [])
      + DurableAnswers(DurableStep(d, calls[0]), calls[1..])
  }

  /**
   * Histories the claim is about: the clock advances, every enqueue brings a
   * new id and finds room, and all workers are of one kind.
   */
  ghost predicate Ordinary(d: S.State, calls: seq<Call>, clock: int, dedicated: bool)
    decreases |calls|
  {
    calls != [] ==>
      && clock < calls[0].now
      && Usual(d, calls[0], dedicated)
      && Ordinary(DurableStep(d, calls[0]), calls[1..], calls[0].now, dedicated)
  }

  ghost predicate Usual(d: S.State, c: Call, dedicated: bool) {
    match c
    case Enqueue(e, _) => e.id !in d.rows && S.Depth(d.rows) < d.cfg.max
    case Dequeue(w, choice, _) => T.Dedicated(w) == dedicated && S.Chosen(d, w, choice)
  }

  // ---- The simulation ----

  /** The queued task and its row agree on what both queues select by. */
  predicate Matches(e: T.Entry, rows: Rows) {
    && Is(rows, e.task.id, Pending)
    && rows[e.task.id].priority == e.task.priority
    && rows[e.task.id].affinity == e.task.affinity
  }

  predicate Earlier(e: T.Entry, f: T.Entry, rows: Rows) {
    Matches(e, rows) && Matches(f, rows) && rows[e.task.id].enqueuedAt < rows[f.task.id].enqueuedAt
  }

  /** The arrival order of the one queue is the enqueue-time order of the other. */
  ghost predicate SameOrder(queue: seq<T.Entry>, rows: Rows) {
    && (forall e :: e in queue ==> Matches(e, rows))
    && (forall e, f :: e in queue && f in queue && e.ticket < f.ticket ==> Earlier(e, f, rows))
  }

  ghost predicate Queued(queue: seq<T.Entry>, id: Id) {
    exists k :: 0 <= k < |queue| && queue[k].task.id == id
  }

  /** Every pending row is queued, in one place. */
  ghost predicate SameTasks(queue: seq<T.Entry>, rows: Rows) {
    && (forall id :: Is(rows, id, Pending) ==> Queued(queue, id))
    && (forall i, j :: 0 <= i < j < |queue| ==> queue[i].task.id != queue[j].task.id)
    && |queue| == S.Depth(rows)
  }

  ghost predicate Dated(rows: Rows, clock: int) {
    forall id :: id in rows ==> rows[id].enqueuedAt <= clock
  }

  ghost predicate Handles(d: S.State) {
    forall id :: Is(d.rows, id, Pending) ==> id in d.tasks
  }

  ghost predicate NoBacklog(m: T.State, d: S.State) {
    && m.waiters == [] && m.settled == {} && d.waiters == [] && d.settled == {} && !d.closed
    && m.max == d.cfg.max
  }

  ghost predicate Sim(m: T.State, d: S.State, clock: int) {
    && NoBacklog(m, d) && T.OrderInv(m)
    && SameOrder(m.queue, d.rows) && SameTasks(m.queue, d.rows) && Dated(d.rows, clock) && Handles(d)
  }

  // ---- Both select the same task ----

  lemma SimLater(m: T.State, d: S.State, clock: int, now: int, cache: Option<bool>)
    requires Sim(m, d, clock) && clock <= now
    ensures Sim(m, d.(anyDedicated := cache), now)
  {
  }

  lemma PinnedAlike(m: T.State, d: S.State, clock: int, w: T.Worker)
    requires Sim(m, d, clock)
    ensures S.HasPinned(d, w) <==> exists k :: 0 <= k < |m.queue| && T.Pinned(m.queue[k], w, m.settled)
  {
    if S.HasPinned(d, w) {
      var id :| id in S.PinnedIds(d.rows, T.TargetKey(w).value);
      assert Is(d.rows, id, Pending) && Queued(m.queue, id);
      var k :| 0 <= k < |m.queue| && m.queue[k].task.id == id;
      assert Matches(m.queue[k], d.rows);
      assert T.Pinned(m.queue[k], w, m.settled);
    }
    forall k | 0 <= k < |m.queue| && T.Pinned(m.queue[k], w, m.settled) ensures S.HasPinned(d, w) {
      assert Matches(m.queue[k], d.rows);
      assert m.queue[k].task.id in S.PinnedIds(d.rows, T.TargetKey(w).value);
    }
  }

  lemma EligibleAlike(m: T.State, d: S.State, clock: int, w: T.Worker, k: nat)
    requires Sim(m, d, clock) && S.AnyFlavour(d, w) == T.Dedicated(w) && k < |m.queue|
    ensures m.queue[k].task.id in S.Candidates(d, w) <==> T.Eligible(m.queue, m.queue[k], w, m.settled)
  {
    PinnedAlike(m, d, clock, w);
    assert Matches(m.queue[k], d.rows);
  }

  lemma EarlierPrecedes(queue: seq<T.Entry>, rows: Rows, k: nat, j: nat)
    requires T.Sorted(queue) && SameOrder(queue, rows) && k < j < |queue|
    ensures Matches(queue[k], rows) && Matches(queue[j], rows)
    ensures S.Precedes(rows[queue[k].task.id], rows[queue[j].task.id])
  {
    assert T.Before(queue[k], queue[j]);
    assert queue[k].ticket < queue[j].ticket ==> Earlier(queue[k], queue[j], rows);
  }

  /** Whatever the SELECTs return, it is the task the list search finds. */
  lemma SameChoice(m: T.State, d: S.State, clock: int, w: T.Worker, choice: Option<Id>)
    requires Sim(m, d, clock) && S.AnyFlavour(d, w) == T.Dedicated(w) && S.Chosen(d, w, choice)
    ensures choice == MemoryAnswer(m, w) && (choice.Some? ==> Is(d.rows, choice.value, Pending))
  {
    var k := T.Select(m.queue, w, m.settled);
    T.SelectEligible(m.queue, w, m.settled);
    if k < |m.queue| {
      EligibleAlike(m, d, clock, w, k);
    }
    if choice.Some? {
      var id := choice.value;
      assert Is(d.rows, id, Pending) && Queued(m.queue, id);
      var j :| 0 <= j < |m.queue| && m.queue[j].task.id == id;
      EligibleAlike(m, d, clock, w, j);
      if k < j {
        EarlierPrecedes(m.queue, d.rows, k, j);
        assert false;
      }
    }
  }

  /**
   * Exactly when the two answers agree, whatever flavour the shared statement
   * has: it is the caller's, or a task is pinned to the caller, or the first
   * task of all is not pinned.
   */
  lemma SameChoiceIff(m: T.State, d: S.State, clock: int, w: T.Worker, choice: Option<Id>)
    requires Sim(m, d, clock) && S.Chosen(d, w, choice)
    ensures choice == MemoryAnswer(m, w) <==>
      || S.AnyFlavour(d, w) == T.Dedicated(w)
      || S.HasPinned(d, w)
      || m.queue == [] || m.queue[0].task.affinity.None?
  {
    var other := T.Worker(T.TargetKey(w), None, S.AnyFlavour(d, w));
    AsIf(m, d, clock, w, other, choice);
    PinnedAlike(m, d, clock, w);
    SameSearchIff(m.queue, w, other);
  }

  /** The SELECTs answer as the list search does for a worker of the flavour of the statement. */
  lemma AsIf(m: T.State, d: S.State, clock: int, w: T.Worker, other: T.Worker, choice: Option<Id>)
    requires Sim(m, d, clock) && S.Chosen(d, w, choice)
    requires other == T.Worker(T.TargetKey(w), None, S.AnyFlavour(d, w))
    ensures choice == MemoryAnswer(m, other)
  {
    var flavour := S.AnyFlavour(d, w);
    SimLater(m, d, clock, clock, Some(flavour));
    SameChoice(m, d.(anyDedicated := Some(flavour)), clock, other, choice);
  }

  /**
   * Two workers of one key find the same task if and only if they are of one kind, or a task is pinned
   * to them, or the first task is not pinned.
   */
  lemma SameSearchIff(queue: seq<T.Entry>, w: T.Worker, v: T.Worker)
    requires T.TargetKey(w) == T.TargetKey(v)
    ensures T.First(queue, 0, w, {}, true) == T.First(queue, 0, v, {}, true)
    ensures T.Select(queue, w, {}) == T.Select(queue, v, {}) <==>
      || T.Dedicated(w) == T.Dedicated(v)
      || T.First(queue, 0, w, {}, true) < |queue|
      || queue == [] || queue[0].task.affinity.None?
  {
    SameFirst(queue, w, v, true, 0);
    if T.Dedicated(w) == T.Dedicated(v) {
      SameFirst(queue, w, v, false, 0);
    } else if queue != [] {
      assert T.Open(queue[0], if T.Dedicated(w) then v else w, {});
    }
  }

  /** The first search looks at the key only, the second at the kind of the worker only. */
  lemma {:induction false} SameFirst(queue: seq<T.Entry>, w: T.Worker, v: T.Worker, pinned: bool, from: nat)
    requires from <= |queue| && if pinned then T.TargetKey(w) == T.TargetKey(v) else T.Dedicated(w) == T.Dedicated(v)
    ensures T.First(queue, from, w, {}, pinned) == T.First(queue, from, v, {}, pinned)
    decreases |queue| - from
  {
    if from < |queue| {
      SameFirst(queue, w, v, pinned, from + 1);
    }
  }

  // ---- Every call keeps the simulation ----

  lemma EnqueueRows(queue: seq<T.Entry>, longer: seq<T.Entry>, rows: Rows, clock: int, e: Envelope, ticket: nat,
                    now: int)
    requires SameOrder(queue, rows) && Dated(rows, clock) && clock < now && e.id !in rows
    requires forall q :: q in queue ==> q.ticket < ticket
    requires forall x :: x in longer <==> x in queue || x == T.Entry(TaskOf(e), ticket)
    ensures SameOrder(longer, Apply(rows, Upsert(e, now))) && Dated(Apply(rows, Upsert(e, now)), now)
  {
    var u := Apply(rows, Upsert(e, now));
    forall x | x in longer ensures Matches(x, u) {
      if x in queue {
        assert Matches(x, rows);
      }
    }
    forall x, y | x in longer && y in longer && x.ticket < y.ticket ensures Earlier(x, y, u) {
      assert x in queue && Matches(x, rows) && Matches(x, u) && Matches(y, u);
      if y in queue {
        assert Earlier(x, y, rows);
      }
    }
  }

  lemma {:induction false} InsertIds(queue: seq<T.Entry>, x: T.Entry)
    requires forall i, j :: 0 <= i < j < |queue| ==> queue[i].task.id != queue[j].task.id
    requires forall q :: q in queue ==> q.task.id != x.task.id
    ensures var r := T.Insert(queue, x); forall i, j :: 0 <= i < j < |r| ==> r[i].task.id != r[j].task.id
  {
    if queue != [] && x.task.priority <= queue[0].task.priority {
      InsertIds(queue[1..], x);
      T.MembersOfInsert(queue[1..], x);
      var r := T.Insert(queue[1..], x);
      forall j | 0 <= j < |r| ensures r[j].task.id != queue[0].task.id {
        assert r[j] in r;
      }
    }
  }

  lemma EnqueueTasks(queue: seq<T.Entry>, rows: Rows, e: Envelope, ticket: nat, now: int)
    requires SameTasks(queue, rows) && e.id !in rows && forall q :: q in queue ==> q.task.id in rows
    ensures SameTasks(T.Insert(queue, T.Entry(TaskOf(e), ticket)), Apply(rows, Upsert(e, now)))
  {
    var x := T.Entry(TaskOf(e), ticket);
    var longer := T.Insert(queue, x);
    var u := Apply(rows, Upsert(e, now));
    T.MembersOfInsert(queue, x);
    InsertIds(queue, x);
    S.PendingAfter(rows, Upsert(e, now));
    forall id | Is(u, id, Pending) ensures Queued(longer, id) {
      if id == e.id {
        assert x in longer;
      } else {
        assert Is(rows, id, Pending) && Queued(queue, id);
        var k :| 0 <= k < |queue| && queue[k].task.id == id;
        assert queue[k] in longer;
      }
    }
  }

  lemma EnqueueSim(m: T.State, d: S.State, clock: int, e: Envelope, now: int)
    requires Sim(m, d, clock) && clock < now && e.id !in d.rows && S.Depth(d.rows) < d.cfg.max
    ensures Sim(T.Enqueue(m, TaskOf(e)), S.AfterEnqueue(d, e, now), now)
  {
    var x := T.Entry(TaskOf(e), |m.submitted|);
    forall q | q in m.queue ensures q.task.id in d.rows {
      assert Matches(q, d.rows);
    }
    T.EnqueueOrder(m, TaskOf(e));
    T.MembersOfInsert(m.queue, x);
    EnqueueRows(m.queue, T.Insert(m.queue, x), d.rows, clock, e, |m.submitted|, now);
    EnqueueTasks(m.queue, d.rows, e, |m.submitted|, now);
  }

  lemma ClaimRows(queue: seq<T.Entry>, k: nat, rows: Rows, clock: int, t: Txn)
    requires SameOrder(queue, rows) && SameTasks(queue, rows) && Dated(rows, clock) && k < |queue|
    requires t.Claim? && t.id == queue[k].task.id
    ensures SameOrder(T.Without(queue, k), Apply(rows, t)) && Dated(Apply(rows, t), clock)
  {
    var rest := T.Without(queue, k);
    var u := Apply(rows, t);
    forall x | x in rest ensures x in queue && Matches(x, u) && u[x.task.id] == rows[x.task.id] {
      var i :| 0 <= i < |rest| && rest[i] == x;
      assert x == queue[if i < k then i else i + 1];
      assert Matches(x, rows);
    }
    forall x, y | x in rest && y in rest && x.ticket < y.ticket ensures Earlier(x, y, u) {
      assert Earlier(x, y, rows);
    }
  }

  lemma ClaimTasks(queue: seq<T.Entry>, k: nat, rows: Rows, t: Txn)
    requires SameTasks(queue, rows) && k < |queue|
    requires t.Claim? && t.id == queue[k].task.id && Is(rows, t.id, Pending)
    ensures SameTasks(T.Without(queue, k), Apply(rows, t))
  {
    var rest := T.Without(queue, k);
    var u := Apply(rows, t);
    S.PendingAfter(rows, t);
    forall id | Is(u, id, Pending) ensures Queued(rest, id) {
      assert Is(rows, id, Pending) && id != t.id && Queued(queue, id);
      var i :| 0 <= i < |queue| && queue[i].task.id == id;
      assert rest[if i < k then i else i - 1] == queue[i];
    }
    forall i, j | 0 <= i < j < |rest| ensures rest[i].task.id != rest[j].task.id {
      assert rest[i] == queue[if i < k then i else i + 1] && rest[j] == queue[if j < k then j else j + 1];
    }
  }

  /** The `k`-th task leaves the list and its row is claimed. */
  lemma ClaimSim(m: T.State, d: S.State, clock: int, k: nat, u: T.State, v: S.State, t: Txn)
    requires Sim(m, d, clock) && k < |m.queue| && t.Claim? && t.id == m.queue[k].task.id
    requires u == m.(queue := T.Without(m.queue, k), dequeued := m.dequeued + [m.queue[k]])
    requires v == d.(rows := Apply(d.rows, t), tasks := d.tasks - {t.id},
                     size := v.size, anyDedicated := v.anyDedicated)
    ensures Sim(u, v, clock)
  {
    assert Matches(m.queue[k], d.rows);
    T.WithoutOrder(m.queue, k);
    T.WithoutMembers(m.queue, k);
    ClaimRows(m.queue, k, d.rows, clock, t);
    ClaimTasks(m.queue, k, d.rows, t);
  }

  lemma DequeueSim(m: T.State, d: S.State, clock: int, w: T.Worker, choice: Option<Id>, now: int)
    requires Sim(m, d, clock) && choice == MemoryAnswer(m, w) && clock < now
    requires choice.Some? ==> Is(d.rows, choice.value, Pending)
    ensures Sim(T.Dequeue(m, w), S.AfterDequeue(d, w, choice, now), now)
    ensures S.Handed(d, choice) == choice
  {
    var k := T.Select(m.queue, w, m.settled);
    var cache := S.AfterSelect(d, w).anyDedicated;
    SimLater(m, d, clock, now, cache);
    if k < |m.queue| {
      var v := S.AfterClaim(S.AfterSelect(d, w), choice.value, now);
      ClaimSim(m, d.(anyDedicated := cache), now, k,
               m.(queue := T.Without(m.queue, k), dequeued := m.dequeued + [m.queue[k]]), v,
               Claim(choice.value, d.cfg.workerId, now, now + d.cfg.leaseMs));
    }
  }

  /** The cached statement has the flavour of the only kind of worker, or none yet. */
  predicate Flavoured(d: S.State, dedicated: bool) {
    d.anyDedicated == None || d.anyDedicated == Some(dedicated)
  }

  lemma StepSim(m: T.State, d: S.State, clock: int, c: Call, dedicated: bool)
    requires Sim(m, d, clock) && Flavoured(d, dedicated) && clock < c.now && Usual(d, c, dedicated)
    ensures Sim(MemoryStep(m, c), DurableStep(d, c), c.now) && Flavoured(DurableStep(d, c), dedicated)
    ensures c.Dequeue? ==> S.Handed(d, c.choice) == MemoryAnswer(m, c.worker)
  {
    match c
    case Enqueue(e, now) => EnqueueSim(m, d, clock, e, now);
    case Dequeue(w, choice, now) =>
      SameChoice(m, d, clock, w, choice);
      DequeueSim(m, d, clock, w, choice, now);
  }

  lemma {:induction false} SimAnswers(m: T.State, d: S.State, clock: int, calls: seq<Call>, dedicated: bool)
    requires Sim(m, d, clock) && Flavoured(d, dedicated) && Ordinary(d, calls, clock, dedicated)
    ensures DurableAnswers(d, calls) == MemoryAnswers(m, calls)
    decreases |calls|
  {
    if calls != [] {
      StepSim(m, d, clock, calls[0], dedicated);
      SimAnswers(MemoryStep(m, calls[0]), DurableStep(d, calls[0]), calls[0].now, calls[1..], dedicated);
    }
  }

  lemma OpenSim(cfg: S.Config, rows: Rows, start: int)
    requires cfg.max != 0 && S.PendingIds(Apply(rows, Reclaim(start))) == {} && Dated(rows, start)
    ensures Sim(T.Init(cfg.max), S.Open(cfg, rows, start), start)
  {
    var d := S.Open(cfg, rows, start);
    forall id | id in d.rows ensures d.rows[id].status != Pending {
      assert id !in S.PendingIds(Apply(rows, Reclaim(start)));
    }
    assert S.PendingIds(d.rows) == {};
  }

  /**
   * The durable queue refines the in-memory one: opened on a table without
   * pending rows, it answers every ordinary history as a new in-memory queue
   * of the same capacity does, affinity preference included.
   */
  lemma DurableRefinesMemory(cfg: S.Config, rows: Rows, start: int, calls: seq<Call>, dedicated: bool)
    requires cfg.max != 0 && S.PendingIds(Apply(rows, Reclaim(start))) == {} && Dated(rows, start)
    requires Ordinary(S.Open(cfg, rows, start), calls, start, dedicated)
    ensures DurableAnswers(S.Open(cfg, rows, start), calls) == MemoryAnswers(T.Init(cfg.max), calls)
  {
    OpenSim(cfg, rows, start);
    SimAnswers(T.Init(cfg.max), S.Open(cfg, rows, start), start, calls, dedicated);
  }

  /**
   * One kind of worker is needed: after a dedicated worker found nothing, a
   * general one is refused the pinned task that the in-memory queue hands it.
   */
  lemma MixedWorkersDiffer(cfg: S.Config, e: Envelope)
    requires cfg.max > 0 && e.affinity.Some?
    ensures var d, m := S.Open(cfg, map[], 0), T.Init(cfg.max);
      var first := Dequeue(T.Worker(None, None, true), None, 1);
      var d1, m1 := DurableStep(d, first), MemoryStep(m, first);
      && S.Chosen(d, first.worker, None) && MemoryAnswer(m, first.worker) == None
      && S.Chosen(DurableStep(d1, Enqueue(e, 2)), T.NoWorker, None)
      && MemoryAnswer(MemoryStep(m1, Enqueue(e, 2)), T.NoWorker) == Some(e.id)
  {
  }

}
