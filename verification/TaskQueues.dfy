/**
 * The in-memory queue (src/task-queue.js): stable priority insertion,
 * affinity-aware removal, and bounded admission with waiters.
 *
 * A ticket numbers the calls of `enqueue` that were not ignored, in call
 * order. `State` also records what left: the tasks dequeued and the tasks
 * turned away (timed out, abandoned or destroyed).
 */
module TaskQueues {
  import opened Prelude

  type Key = nat

  datatype Task = Task(id: nat, priority: int, affinity: Option<Key>)

  datatype Entry = Entry(task: Task, ticket: nat)

  /** What `dequeue` looks at in a worker; `NoWorker` is the `null` default. */
  datatype Worker = NoWorker | Worker(affinityKey: Option<Key>, name: Option<Key>, isDedicated: bool)

  datatype State = State(
    max: int,
    queue: seq<Entry>,
    waiters: seq<Entry>,
    settled: set<nat>,
    submitted: seq<Entry>,
    dequeued: seq<Entry>,
    turnedAway: seq<Entry>)

  datatype Op =
    | OpEnqueue(task: Task)
    | OpDequeue(worker: Worker)
    | OpTimeout(index: nat)
    | OpSettle(id: nat)
    | OpDestroy

  // ---- Selection ----

  function TargetKey(w: Worker): Option<Key> {
    if w.NoWorker? then None else if w.affinityKey.Some? then w.affinityKey else w.name
  }

  predicate Dedicated(w: Worker) { w.Worker? && w.isDedicated }

  /** First choice: an unsettled task pinned to this worker. */
  predicate Pinned(e: Entry, w: Worker, settled: set<nat>) {
    e.task.id !in settled && TargetKey(w).Some? && e.task.affinity == TargetKey(w)
  }

  /** Second choice: an unsettled task; for a dedicated worker only an unpinned one. */
  predicate Open(e: Entry, w: Worker, settled: set<nat>) {
    e.task.id !in settled && (e.task.affinity.None? || !Dedicated(w))
  }

  /** Whether `dequeue` may hand `e` to `w`: pinned tasks go first, others only when there is none. */
  predicate Eligible(queue: seq<Entry>, e: Entry, w: Worker, settled: set<nat>) {
    if exists k :: 0 <= k < |queue| && Pinned(queue[k], w, settled) then Pinned(e, w, settled) else Open(e, w, settled)
  }

  /** Higher priority first, and within a priority the earlier ticket. */
  predicate Before(a: Entry, b: Entry) {
    a.task.priority > b.task.priority || (a.task.priority == b.task.priority && a.ticket < b.ticket)
  }

  ghost predicate Sorted(queue: seq<Entry>) {
    forall i, j :: 0 <= i < j < |queue| ==> Before(queue[i], queue[j])
  }

  /** The index of the first eligible task, or the length when there is none. */
  function Select(queue: seq<Entry>, w: Worker, settled: set<nat>): (k: nat)
    ensures k <= |queue|
  {
    var p := First(queue, 0, w, settled, true);
    if p < |queue| then p else First(queue, 0, w, settled, false)
  }

  function First(queue: seq<Entry>, from: nat, w: Worker, settled: set<nat>, pinned: bool): (k: nat)
    requires from <= |queue|
    ensures from <= k <= |queue|
    ensures forall i :: from <= i < k ==> !(if pinned then Pinned(queue[i], w, settled) else Open(queue[i], w, settled))
    ensures k < |queue| ==> if pinned then Pinned(queue[k], w, settled) else Open(queue[k], w, settled)
    decreases |queue| - from
  {
    if from == |queue| then from
    else if (if pinned then Pinned(queue[from], w, settled) else Open(queue[from], w, settled)) then from
    else First(queue, from + 1, w, settled, pinned)
  }

  // ---- The steps ----

  function Without(entries: seq<Entry>, k: nat): seq<Entry>
    requires k < |entries|
  {
    entries[..k] + entries[k + 1..]
  }

  function Insert(queue: seq<Entry>, e: Entry): seq<Entry> {
    if queue == [] then [e]
    else if e.task.priority > queue[0].task.priority then [e] + queue
    else [queue[0]] + Insert(queue[1..], e)
  }

  function Init(maxQueueSize: int): State {
    State(if maxQueueSize == 0 then 1000 else maxQueueSize, [], [], {}, [], [], [])
  }

  function Enqueue(s: State, t: Task): State {
    if t.id in s.settled then s
    else
      var e := Entry(t, |s.submitted|);
      var u := s.(submitted := s.submitted + [e]);
      if |s.queue| < s.max then u.(queue := Insert(s.queue, e)) else u.(waiters := s.waiters + [e])
  }

  /** Promotes the first waiter that is still wanted; those settled meanwhile are turned away. */
  function Drain(s: State): State
    decreases |s.waiters|
  {
    if s.waiters == [] || |s.queue| >= s.max then s
    else
      var e, u := s.waiters[0], s.(waiters := s.waiters[1..]);
      if e.task.id in s.settled then Drain(u.(turnedAway := s.turnedAway + [e]))
      else u.(queue := Insert(s.queue, e))
  }

  function Dequeue(s: State, w: Worker): State {
    var k := Select(s.queue, w, s.settled);
    if k == |s.queue| then s
    else Drain(s.(queue := Without(s.queue, k), dequeued := s.dequeued + [s.queue[k]]))
  }

  /** A waiter's timer fires: the waiter leaves and its task is rejected. */
  function Timeout(s: State, index: nat): State {
    if index >= |s.waiters| then s
    else
      var e := s.waiters[index];
      s.(waiters := Without(s.waiters, index),
         settled := s.settled + {e.task.id}, turnedAway := s.turnedAway + [e])
  }

  function Ids(entries: seq<Entry>): set<nat> {
    set e | e in entries :: e.task.id
  }

  function Destroy(s: State): State {
    s.(queue := [], waiters := [], settled := s.settled + Ids(s.waiters) + Ids(s.queue),
       turnedAway := s.turnedAway + s.waiters + s.queue)
  }

  function Apply(s: State, op: Op): State {
    match op
    case OpEnqueue(t) => Enqueue(s, t)
    case OpDequeue(w) => Dequeue(s, w)
    case OpTimeout(k) => Timeout(s, k)
    case OpSettle(id) => s.(settled := s.settled + {id})
    case OpDestroy => Destroy(s)
  }

  function Run(s: State, ops: seq<Op>): State
    decreases |ops|
  {
    if ops == [] then s else Run(Apply(s, ops[0]), ops[1..])
  }

  // ---- Queue order ----

  lemma {:induction false} InsertKept(queue: seq<Entry>, e: Entry)
    requires Sorted(queue)
    requires forall q :: q in queue ==> q.ticket < e.ticket
    ensures Sorted(Insert(queue, e))
    ensures multiset(Insert(queue, e)) == multiset(queue) + multiset{e}
    ensures |Insert(queue, e)| == |queue| + 1
  {
    if queue == [] {
    } else if e.task.priority > queue[0].task.priority {
      assert forall i :: 0 <= i < |queue| ==> Before(e, queue[i]);
    } else {
      var rest := queue[1..];
      assert queue == [queue[0]] + rest;
      InsertKept(rest, e);
      var r := Insert(rest, e);
      forall i | 0 <= i < |r| ensures Before(queue[0], r[i]) {
        assert r[i] in multiset(r);
        if r[i] != e {
          assert r[i] in rest;
        }
      }
    }
  }

  lemma MembersOfInsert(queue: seq<Entry>, e: Entry)
    ensures multiset(Insert(queue, e)) == multiset(queue) + multiset{e}
    ensures forall x :: x in Insert(queue, e) <==> x in queue || x == e
    ensures |Insert(queue, e)| == |queue| + 1
  {
    if queue != [] && e.task.priority <= queue[0].task.priority {
      assert queue == [queue[0]] + queue[1..];
      MembersOfInsert(queue[1..], e);
    }
  }

  /** All tickets are below `n`. */
  ghost predicate Below(entries: seq<Entry>, n: nat) {
    forall e :: e in entries ==> e.ticket < n
  }

  ghost predicate Increasing(waiters: seq<Entry>) {
    forall i, j :: 0 <= i < j < |waiters| ==> waiters[i].ticket < waiters[j].ticket
  }

  /** The first ticket not admitted yet: everything admitted so far has a smaller one. */
  function Mark(s: State): nat {
    if s.waiters == [] then |s.submitted| else s.waiters[0].ticket
  }

  ghost predicate TicketInv(s: State) {
    && Increasing(s.waiters)
    && Below(s.waiters, |s.submitted|)
    && Below(s.queue, Mark(s))
    && Below(s.dequeued, Mark(s))
  }

  ghost predicate CapacityInv(s: State) {
    && (|s.queue| <= s.max || s.queue == [])
    && (s.waiters != [] ==> |s.queue| >= s.max)
  }

  /** The records carry the tickets of their calls, and every one of them is in exactly one place. */
  ghost predicate Conserved(s: State) {
    && (forall t :: 0 <= t < |s.submitted| ==> s.submitted[t].ticket == t)
    && multiset(s.submitted)
       == multiset(s.queue) + multiset(s.waiters) + multiset(s.dequeued) + multiset(s.turnedAway)
  }

  ghost predicate OrderInv(s: State) {
    Sorted(s.queue) && TicketInv(s)
  }

  ghost predicate Inv(s: State) {
    OrderInv(s) && CapacityInv(s) && Conserved(s)
  }

  lemma MarkGrows(s: State, waiters: seq<Entry>)
    requires TicketInv(s) && Increasing(waiters) && forall e :: e in waiters ==> e in s.waiters
    ensures Mark(s.(waiters := waiters)) >= Mark(s) && Mark(s) <= |s.submitted|
  {
    if waiters != [] {
      assert waiters[0] in s.waiters;
      var k :| 0 <= k < |s.waiters| && s.waiters[k] == waiters[0];
      assert k == 0 || s.waiters[0].ticket < s.waiters[k].ticket;
    }
    if s.waiters != [] {
      assert s.waiters[0] in s.waiters;
    }
  }

  lemma EnqueueOrder(s: State, t: Task)
    requires OrderInv(s) && (s.waiters != [] ==> |s.queue| >= s.max)
    ensures OrderInv(Enqueue(s, t))
  {
    var e := Entry(t, |s.submitted|);
    MarkGrows(s, s.waiters);
    if |s.queue| < s.max {
      InsertKept(s.queue, e);
      MembersOfInsert(s.queue, e);
    } else {
      assert (s.waiters + [e])[0] == if s.waiters == [] then e else s.waiters[0];
    }
  }

  lemma EnqueueConserved(s: State, t: Task)
    requires Conserved(s)
    ensures Conserved(Enqueue(s, t))
  {
    var e := Entry(t, |s.submitted|);
    MembersOfInsert(s.queue, e);
    assert multiset(s.submitted + [e]) == multiset(s.submitted) + multiset{e};
    assert multiset(s.waiters + [e]) == multiset(s.waiters) + multiset{e};
  }

  lemma EnqueueKept(s: State, t: Task)
    requires Inv(s)
    ensures Inv(Enqueue(s, t))
  {
    EnqueueOrder(s, t);
    EnqueueConserved(s, t);
    MembersOfInsert(s.queue, Entry(t, |s.submitted|));
  }

  /** The first waiter is turned away. */
  lemma HeadAway(s: State, u: State)
    requires s.waiters != [] && u == s.(waiters := s.waiters[1..], turnedAway := s.turnedAway + [s.waiters[0]])
    ensures OrderInv(s) ==> OrderInv(u)
    ensures Conserved(s) ==> Conserved(u)
  {
    assert s.waiters == [s.waiters[0]] + s.waiters[1..];
    if OrderInv(s) {
      MarkGrows(s, s.waiters[1..]);
    }
  }

  /** The first waiter is promoted. */
  lemma HeadOrder(s: State, u: State)
    requires OrderInv(s) && s.waiters != []
    requires u == s.(waiters := s.waiters[1..], queue := Insert(s.queue, s.waiters[0]))
    ensures OrderInv(u)
  {
    var e := s.waiters[0];
    assert s.waiters == [e] + s.waiters[1..];
    assert e in s.waiters;
    InsertKept(s.queue, e);
    MembersOfInsert(s.queue, e);
    MarkGrows(s, s.waiters[1..]);
    assert Mark(u) > e.ticket;
  }

  lemma HeadConserved(s: State, u: State)
    requires Conserved(s) && s.waiters != []
    requires u == s.(waiters := s.waiters[1..], queue := Insert(s.queue, s.waiters[0]))
    ensures Conserved(u)
  {
    assert s.waiters == [s.waiters[0]] + s.waiters[1..];
    MembersOfInsert(s.queue, s.waiters[0]);
  }

  lemma {:induction false} DrainKept(s: State)
    requires OrderInv(s) && Conserved(s)
    requires |s.queue| <= s.max || s.queue == []
    requires s.waiters != [] ==> |s.queue| >= s.max - 1
    ensures Inv(Drain(s))
    decreases |s.waiters|
  {
    if s.waiters != [] && |s.queue| < s.max {
      var e, u := s.waiters[0], s.(waiters := s.waiters[1..]);
      if e.task.id in s.settled {
        HeadAway(s, u.(turnedAway := s.turnedAway + [e]));
        DrainKept(u.(turnedAway := s.turnedAway + [e]));
      } else {
        HeadOrder(s, u.(queue := Insert(s.queue, e)));
        HeadConserved(s, u.(queue := Insert(s.queue, e)));
        MembersOfInsert(s.queue, e);
      }
    }
  }

  lemma WithoutMembers(entries: seq<Entry>, k: nat)
    requires k < |entries|
    ensures multiset(entries) == multiset(Without(entries, k)) + multiset{entries[k]}
    ensures forall x :: x in Without(entries, k) ==> x in entries
  {
    assert entries == entries[..k] + [entries[k]] + entries[k + 1..];
  }

  lemma WithoutOrder(entries: seq<Entry>, k: nat)
    requires k < |entries|
    ensures Sorted(entries) ==> Sorted(Without(entries, k))
    ensures Increasing(entries) ==> Increasing(Without(entries, k))
  {
    var r := Without(entries, k);
    forall i, j | 0 <= i < j < |r|
      ensures Sorted(entries) ==> Before(r[i], r[j])
      ensures Increasing(entries) ==> r[i].ticket < r[j].ticket
    {
      assert r[i] == entries[if i < k then i else i + 1];
      assert r[j] == entries[if j < k then j else j + 1];
    }
  }

  lemma TakenKept(s: State, k: nat)
    requires Inv(s) && k < |s.queue|
    ensures var u := s.(queue := Without(s.queue, k), dequeued := s.dequeued + [s.queue[k]]);
      OrderInv(u) && Conserved(u)
  {
    WithoutMembers(s.queue, k);
    WithoutOrder(s.queue, k);
  }

  lemma DequeueKept(s: State, w: Worker)
    requires Inv(s)
    ensures Inv(Dequeue(s, w))
  {
    var k := Select(s.queue, w, s.settled);
    if k < |s.queue| {
      TakenKept(s, k);
      DrainKept(s.(queue := Without(s.queue, k), dequeued := s.dequeued + [s.queue[k]]));
    }
  }

  lemma TimeoutOrder(s: State, k: nat)
    requires OrderInv(s)
    ensures OrderInv(Timeout(s, k))
  {
    if k < |s.waiters| {
      WithoutMembers(s.waiters, k);
      WithoutOrder(s.waiters, k);
      MarkGrows(s, Without(s.waiters, k));
    }
  }

  lemma TimeoutKept(s: State, k: nat)
    requires Inv(s)
    ensures Inv(Timeout(s, k))
  {
    TimeoutOrder(s, k);
    if k < |s.waiters| {
      WithoutMembers(s.waiters, k);
    }
  }

  lemma StepKept(s: State, op: Op)
    requires Inv(s)
    ensures Inv(Apply(s, op))
  {
    match op
    case OpEnqueue(t) => EnqueueKept(s, t);
    case OpDequeue(w) => DequeueKept(s, w);
    case OpTimeout(k) => TimeoutKept(s, k);
    case OpSettle(id) =>
    case OpDestroy =>
  }

  // ---- Whole runs ----

  /** The queue after `ops`, from a queue built with `maxQueueSize` (0 stands for the default). */
  function After(maxQueueSize: int, ops: seq<Op>): State {
    Run(Init(maxQueueSize), ops)
  }

  lemma {:induction false} RunKept(s: State, ops: seq<Op>)
    requires Inv(s)
    ensures Inv(Run(s, ops)) && Run(s, ops).max == s.max
    decreases |ops|
  {
    if ops != [] {
      StepKept(s, ops[0]);
      MaxKept(s, ops[0]);
      RunKept(Apply(s, ops[0]), ops[1..]);
    }
  }

  lemma MaxKept(s: State, op: Op)
    ensures Apply(s, op).max == s.max
  {
    if op.OpDequeue? {
      var k := Select(s.queue, op.worker, s.settled);
      if k < |s.queue| {
        DrainMax(s.(queue := Without(s.queue, k), dequeued := s.dequeued + [s.queue[k]]));
      }
    }
  }

  lemma {:induction false} DrainMax(s: State)
    ensures Drain(s).max == s.max
    decreases |s.waiters|
  {
    if s.waiters != [] && |s.queue| < s.max && s.waiters[0].task.id in s.settled {
      DrainMax(s.(waiters := s.waiters[1..], turnedAway := s.turnedAway + [s.waiters[0]]));
    }
  }

  /** In every run the list is sorted: priority descending, and arrival ascending within a priority. */
  lemma AlwaysSorted(maxQueueSize: int, ops: seq<Op>)
    ensures Sorted(After(maxQueueSize, ops).queue)
  {
    RunKept(Init(maxQueueSize), ops);
  }

  /** The bound is never exceeded, and tasks wait only while the queue is full. */
  lemma BoundedAdmission(maxQueueSize: int, ops: seq<Op>)
    ensures var s := After(maxQueueSize, ops);
      && s.max == (if maxQueueSize == 0 then 1000 else maxQueueSize)
      && (|s.queue| <= s.max || s.queue == [])
      && (s.waiters != [] ==> |s.queue| >= s.max)
  {
    RunKept(Init(maxQueueSize), ops);
  }

  /**
   * Admission is in call order: whatever was ever let into the queue was
   * enqueued before everything that still waits, so no later call overtakes.
   */
  lemma NoBarging(maxQueueSize: int, ops: seq<Op>)
    ensures var s := After(maxQueueSize, ops);
      && (forall e, w :: (e in s.queue || e in s.dequeued) && w in s.waiters ==> e.ticket < w.ticket)
      && (forall i, j :: 0 <= i < j < |s.waiters| ==> s.waiters[i].ticket < s.waiters[j].ticket)
  {
    RunKept(Init(maxQueueSize), ops);
    var s := After(maxQueueSize, ops);
    forall w | w in s.waiters ensures Mark(s) <= w.ticket {
      var k :| 0 <= k < |s.waiters| && s.waiters[k] == w;
      assert k == 0 || s.waiters[0].ticket < s.waiters[k].ticket;
    }
  }

  /** Every enqueued task is in exactly one place: queued, waiting, dequeued or turned away. */
  lemma OnePlace(maxQueueSize: int, ops: seq<Op>, t: nat)
    requires t < |After(maxQueueSize, ops).submitted|
    ensures var s := After(maxQueueSize, ops); var e := s.submitted[t];
      multiset(s.queue)[e] + multiset(s.waiters)[e] + multiset(s.dequeued)[e] + multiset(s.turnedAway)[e] == 1
  {
    RunKept(Init(maxQueueSize), ops);
    var s := After(maxQueueSize, ops);
    var e := s.submitted[t];
    OnlyOne(s.submitted, t);
  }

  lemma OnlyOne(submitted: seq<Entry>, t: nat)
    requires t < |submitted| && forall i :: 0 <= i < |submitted| ==> submitted[i].ticket == i
    ensures multiset(submitted)[submitted[t]] == 1
  {
    var e := submitted[t];
    assert submitted == submitted[..t] + [e] + submitted[t + 1..];
    assert e !in submitted[..t] && e !in submitted[t + 1..];
  }

  ghost predicate AwaySettled(s: State) {
    forall e :: e in s.turnedAway ==> e.task.id in s.settled
  }

  lemma {:induction false} DrainAway(s: State)
    requires AwaySettled(s)
    ensures AwaySettled(Drain(s)) && Drain(s).settled == s.settled
    decreases |s.waiters|
  {
    if s.waiters != [] && |s.queue| < s.max && s.waiters[0].task.id in s.settled {
      DrainAway(s.(waiters := s.waiters[1..], turnedAway := s.turnedAway + [s.waiters[0]]));
    }
  }

  lemma {:induction false} AwayRun(s: State, ops: seq<Op>)
    requires AwaySettled(s)
    ensures AwaySettled(Run(s, ops))
    decreases |ops|
  {
    if ops != [] {
      if ops[0].OpDequeue? {
        var k := Select(s.queue, ops[0].worker, s.settled);
        if k < |s.queue| {
          DrainAway(s.(queue := Without(s.queue, k), dequeued := s.dequeued + [s.queue[k]]));
        }
      }
      AwayRun(Apply(s, ops[0]), ops[1..]);
    }
  }

  /** Nothing is turned away silently: its task is settled. */
  lemma TurnedAwaySettled(maxQueueSize: int, ops: seq<Op>)
    ensures var s := After(maxQueueSize, ops); forall e :: e in s.turnedAway ==> e.task.id in s.settled
  {
    AwayRun(Init(maxQueueSize), ops);
  }

  /**
   * `dequeue` hands out the best eligible task: nothing eligible has a higher
   * priority, or the same priority and an earlier ticket. It returns nothing
   * exactly when nothing is eligible, and a dedicated worker never receives a
   * task pinned elsewhere.
   */
  lemma DequeueBest(s: State, w: Worker)
    requires Sorted(s.queue)
    ensures var k := Select(s.queue, w, s.settled);
      && (k == |s.queue| <==> forall e :: e in s.queue ==> !Eligible(s.queue, e, w, s.settled))
      && (k < |s.queue| ==>
            && Dequeue(s, w).dequeued == s.dequeued + [s.queue[k]]
            && Eligible(s.queue, s.queue[k], w, s.settled)
            && (forall e :: e in s.queue && Eligible(s.queue, e, w, s.settled) ==>
                  e == s.queue[k] || Before(s.queue[k], e))
            && (Dedicated(w) ==> s.queue[k].task.affinity.None? || s.queue[k].task.affinity == TargetKey(w)))
  {
    var k := Select(s.queue, w, s.settled);
    SelectEligible(s.queue, w, s.settled);
    if k < |s.queue| {
      DrainDequeued(s.(queue := Without(s.queue, k), dequeued := s.dequeued + [s.queue[k]]));
      forall e | e in s.queue && Eligible(s.queue, e, w, s.settled)
        ensures e == s.queue[k] || Before(s.queue[k], e)
      {
        var i :| 0 <= i < |s.queue| && s.queue[i] == e;
        assert i >= k;
      }
    }
  }

  lemma SelectEligible(queue: seq<Entry>, w: Worker, settled: set<nat>)
    ensures var k := Select(queue, w, settled);
      && (k < |queue| ==> Eligible(queue, queue[k], w, settled))
      && (forall i :: 0 <= i < k ==> !Eligible(queue, queue[i], w, settled))
  {
    var p := First(queue, 0, w, settled, true);
    if p < |queue| {
      assert Pinned(queue[p], w, settled);
    }
  }

  lemma {:induction false} DrainDequeued(s: State)
    ensures Drain(s).dequeued == s.dequeued
    decreases |s.waiters|
  {
    if s.waiters != [] && |s.queue| < s.max && s.waiters[0].task.id in s.settled {
      DrainDequeued(s.(waiters := s.waiters[1..], turnedAway := s.turnedAway + [s.waiters[0]]));
    }
  }

  ghost predicate AllSettled(s: State) {
    forall e :: e in s.queue ==> e.task.id in s.settled
  }

  ghost predicate OnlyDequeues(ops: seq<Op>) {
    forall op :: op in ops ==> op.OpDequeue?
  }

  lemma {:induction false} BlockStays(s: State, ops: seq<Op>)
    requires AllSettled(s) && OnlyDequeues(ops)
    ensures Run(s, ops) == s
    decreases |ops|
  {
    if ops != [] {
      assert ops[0] in ops;
      assert Select(s.queue, ops[0].worker, s.settled) == |s.queue|;
      BlockStays(s, ops[1..]);
    }
  }

  /**
   * Settled tasks keep their slot: however often a queue is asked, it answers
   * every `dequeue` with nothing and lets no waiter in, if and only if it holds
   * settled tasks only.
   */
  lemma SettledBlock(s: State)
    ensures (forall ops :: OnlyDequeues(ops) ==> Run(s, ops) == s) <==> AllSettled(s)
  {
    if AllSettled(s) {
      forall ops | OnlyDequeues(ops) ensures Run(s, ops) == s {
        BlockStays(s, ops);
      }
    } else {
      var ops := [OpDequeue(NoWorker)];
      var k := Select(s.queue, NoWorker, s.settled);
      var e :| e in s.queue && e.task.id !in s.settled;
      SelectEligible(s.queue, NoWorker, s.settled);
      assert Open(e, NoWorker, s.settled);
      DrainDequeued(s.(queue := Without(s.queue, k), dequeued := s.dequeued + [s.queue[k]]));
      assert Run(s, ops) == Dequeue(s, NoWorker) != s;
      assert OnlyDequeues(ops);
    }
  }

  /** Such a queue is reachable: with room for one, a settled task keeps the next one waiting. */
  lemma SettledBlockReached(t: Task, u: Task, ops: seq<Op>)
    requires t.id != u.id && OnlyDequeues(ops)
    ensures Run(After(1, [OpEnqueue(t), OpSettle(t.id), OpEnqueue(u)]), ops).waiters == [Entry(u, 1)]
  {
    var s := Enqueue(Init(1), t);
    assert Insert([], Entry(t, 0)) == [Entry(t, 0)];
    var r := Apply(s, OpSettle(t.id));
    var q := Enqueue(r, u);
    assert Run(r, [OpEnqueue(u)]) == q;
    assert Run(s, [OpSettle(t.id), OpEnqueue(u)]) == Run(r, [OpEnqueue(u)]);
    assert After(1, [OpEnqueue(t), OpSettle(t.id), OpEnqueue(u)]) == Run(s, [OpSettle(t.id), OpEnqueue(u)]);
    BlockStays(q, ops);
  }

  // ---- The class ----

  datatype Admission = Ignored | Admitted | Waiting

  lemma {:induction false} InsertIs(queue: seq<Entry>, e: Entry, k: nat)
    requires k <= |queue|
    requires forall j :: 0 <= j < k ==> e.task.priority <= queue[j].task.priority
    requires k < |queue| ==> e.task.priority > queue[k].task.priority
    ensures Insert(queue, e) == queue[..k] + [e] + queue[k..]
  {
    if k > 0 {
      InsertIs(queue[1..], e, k - 1);
      assert queue[..k] == [queue[0]] + queue[1..][..k - 1] && queue[1..][k - 1..] == queue[k..];
    }
  }

  /** `TaskQueue`; `settled` stands for the `isSettled` flags of the handles. */
  class TaskQueue {
    const maxQueueSize: int
    var queue: seq<Entry>
    var waiters: seq<Entry>
    var settled: set<nat>
    var submitted: seq<Entry>
    ghost var dequeued: seq<Entry>
    ghost var turnedAway: seq<Entry>

    ghost function Abs(): State
      reads this
    {
      State(maxQueueSize, queue, waiters, settled, submitted, dequeued, turnedAway)
    }

    constructor (maxQueueSize: int)
      ensures Abs() == Init(maxQueueSize)
    {
      this.maxQueueSize := if maxQueueSize == 0 then 1000 else maxQueueSize;
      queue, waiters, settled, submitted, dequeued, turnedAway := [], [], {}, [], [], [];
    }

    method InsertSorted(e: Entry)
      modifies `queue
      ensures queue == Insert(old(queue), e)
    {
      var insertIndex, i := |queue|, 0;
      while i < |queue|
        invariant 0 <= i <= |queue| == insertIndex && queue == old(queue)
        invariant forall j :: 0 <= j < i ==> e.task.priority <= queue[j].task.priority
      {
        if e.task.priority > queue[i].task.priority {
          insertIndex := i;
          break;
        }
        i := i + 1;
      }
      InsertIs(queue, e, insertIndex);
      queue := queue[..insertIndex] + [e] + queue[insertIndex..];
    }

    method Enqueue(task: Task) returns (r: Admission)
      modifies this
      ensures Abs() == Apply(old(Abs()), OpEnqueue(task))
      ensures r == (if task.id in old(settled) then Ignored
                    else if |old(queue)| < maxQueueSize then Admitted else Waiting)
    {
      if task.id in settled {
        return Ignored;
      }
      var e := Entry(task, |submitted|);
      submitted := submitted + [e];
      if |queue| < maxQueueSize {
        InsertSorted(e);
        return Admitted;
      }
      waiters := waiters + [e];
      return Waiting;
    }

    /** `findIndex` over the queue, from the front. */
    method FindIndex(worker: Worker, pinned: bool) returns (k: nat)
      ensures k == First(queue, 0, worker, settled, pinned)
    {
      k := 0;
      while k < |queue| && !(if pinned then Pinned(queue[k], worker, settled) else Open(queue[k], worker, settled))
        invariant k <= |queue|
        invariant First(queue, 0, worker, settled, pinned) == First(queue, k, worker, settled, pinned)
      {
        k := k + 1;
      }
    }

    method Dequeue(worker: Worker) returns (r: Option<Entry>)
      modifies this
      ensures Abs() == Apply(old(Abs()), OpDequeue(worker))
      ensures var k := Select(old(queue), worker, old(settled));
        r == if k < |old(queue)| then Some(old(queue)[k]) else None
    {
      if |queue| == 0 {
        return None;
      }
      var k := |queue|;
      if TargetKey(worker).Some? {
        k := FindIndex(worker, true);
      }
      if k == |queue| {
        k := FindIndex(worker, false);
      }
      if k == |queue| {
        return None;
      }
      r := Some(queue[k]);
      dequeued := dequeued + [queue[k]];
      queue := queue[..k] + queue[k + 1..];
      DrainWaiters();
    }

    method DrainWaiters()
      modifies this
      ensures Abs() == Drain(old(Abs()))
    {
      while |waiters| > 0 && |queue| < maxQueueSize
        invariant Drain(Abs()) == Drain(old(Abs()))
        decreases |waiters|
      {
        var next := waiters[0];
        waiters := waiters[1..];
        if next.task.id in settled {
          turnedAway := turnedAway + [next];
          continue;
        }
        InsertSorted(next);
        return;
      }
    }

    /** A waiter's timer fires. */
    method ExpireWaiter(index: nat)
      modifies this
      ensures Abs() == Apply(old(Abs()), OpTimeout(index))
    {
      if index < |waiters| {
        settled := settled + {waiters[index].task.id};
        turnedAway := turnedAway + [waiters[index]];
        waiters := waiters[..index] + waiters[index + 1..];
      }
    }

    method Destroy()
      modifies this
      ensures Abs() == Apply(old(Abs()), OpDestroy)
    {
      RejectAll(waiters);
      waiters := [];
      RejectAll(queue);
      queue := [];
    }

    method RejectAll(entries: seq<Entry>)
      modifies `settled, `turnedAway
      ensures settled == old(settled) + Ids(entries)
      ensures turnedAway == old(turnedAway) + entries
    {
      for i := 0 to |entries|
        invariant settled == old(settled) + Ids(entries[..i])
        invariant turnedAway == old(turnedAway) + entries[..i]
      {
        assert entries[..i + 1] == entries[..i] + [entries[i]];
        settled := settled + {entries[i].task.id};
        turnedAway := turnedAway + [entries[i]];
      }
      assert entries[..|entries|] == entries;
    }
  }
}
