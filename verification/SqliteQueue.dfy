/**
 * One instance of the durable queue (src/queue/sqlite-backend.js): the shared
 * table, and the volatile part that a crash drops (the handles, the cached
 * pending count, the waiters and the statement cache).
 */
module SqliteQueue {
  import opened Prelude
  import opened LeaseTable
  import T = TaskQueues

  datatype Config = Config(max: int, leaseMs: int, workerId: nat)

  /** `anyDedicated` is the cached `dequeue-any` statement: the flavour its first caller gave it. */
  datatype State = State(
    cfg: Config,
    rows: Rows,
    tasks: set<Id>,
    size: int,
    waiters: seq<Envelope>,
    settled: set<Id>,
    anyDedicated: Option<bool>,
    closed: bool)

  // ---- Reading the table ----

  function PendingIds(rows: Rows): set<Id> {
    set id | id in rows && rows[id].status == Pending
  }

  /** `SELECT COUNT(*) ... WHERE state = 'pending'`. */
  function Depth(rows: Rows): nat {
    |PendingIds(rows)|
  }

  /** `ORDER BY priority DESC, enqueued_at ASC`. */
  predicate Precedes(a: Row, b: Row) {
    a.priority > b.priority || (a.priority == b.priority && a.enqueuedAt < b.enqueuedAt)
  }

  /** A row that `LIMIT 1` may return from `ids`; equal keys leave the choice open. */
  ghost predicate Best(rows: Rows, ids: set<Id>, id: Id)
    requires ids <= rows.Keys
  {
    id in ids && forall o :: o in ids ==> !Precedes(rows[o], rows[id])
  }

  function PinnedIds(rows: Rows, key: Key): (ids: set<Id>)
    ensures ids <= rows.Keys
  {
    set id | id in rows && rows[id].status == Pending && rows[id].affinity == Some(key)
  }

  function AnyIds(rows: Rows, dedicated: bool): (ids: set<Id>)
    ensures ids <= rows.Keys
  {
    set id | id in rows && rows[id].status == Pending && (dedicated ==> rows[id].affinity.None?)
  }

  predicate HasPinned(s: State, w: T.Worker) {
    T.TargetKey(w).Some? && PinnedIds(s.rows, T.TargetKey(w).value) != {}
  }

  /** The flavour of the `dequeue-any` statement that a call by `w` runs. */
  function AnyFlavour(s: State, w: T.Worker): bool {
    if s.anyDedicated.Some? then s.anyDedicated.value else T.Dedicated(w)
  }

  /** The rows the deciding SELECT of `dequeue` chooses from. */
  function Candidates(s: State, w: T.Worker): (ids: set<Id>)
    ensures ids <= s.rows.Keys
  {
    if HasPinned(s, w) then PinnedIds(s.rows, T.TargetKey(w).value) else AnyIds(s.rows, AnyFlavour(s, w))
  }

  /** `choice` is what the SELECTs of `dequeue` may come back with. */
  ghost predicate Chosen(s: State, w: T.Worker, choice: Option<Id>) {
    if Candidates(s, w) == {} then choice.None?
    else choice.Some? && Best(s.rows, Candidates(s, w), choice.value)
  }

  // ---- The operations ----

  /** `#insert` after its capacity check: the transaction, the handle and the cached count. */
  function InsertRow(s: State, e: Envelope, now: int): State {
    s.(rows := Apply(s.rows, Upsert(e, now)),
       tasks := s.tasks + {e.id},
       size := s.size + (if e.id in s.rows then 0 else 1))
  }

  /** `#drainWaiters`: the bound is tested on the cached count, the insert tests it on the table. */
  function Drain(s: State, now: int): State
    decreases |s.waiters|
  {
    if s.waiters == [] || s.size >= s.cfg.max then s
    else
      var e, u := s.waiters[0], s.(waiters := s.waiters[1..]);
      if e.id in s.settled then Drain(u, now)
      else if Depth(s.rows) >= s.cfg.max then u.(waiters := u.waiters + [e])
      else Drain(InsertRow(u, e, now), now)
  }

  function AfterEnqueue(s: State, e: Envelope, now: int): State {
    if s.closed then s.(settled := s.settled + {e.id})
    else if e.id in s.settled then s
    else if Depth(s.rows) >= s.cfg.max then s.(waiters := s.waiters + [e])
    else Drain(InsertRow(s, e, now), now)
  }

  function ClaimRow(s: State, id: Id, now: int): Rows {
    Apply(s.rows, Claim(id, s.cfg.workerId, now, now + s.cfg.leaseMs))
  }

  /** The task a call of `dequeue` hands out: none when the claimed row has no handle and cannot be read. */
  function Handed(s: State, choice: Option<Id>): Option<Id> {
    if !s.closed && choice.Some? && choice.value in s.rows
       && (choice.value in s.tasks || s.rows[choice.value].readable)
    then choice else None
  }

  /** The SELECTs of `dequeue` may prepare the shared statement. */
  function AfterSelect(s: State, w: T.Worker): State {
    s.(anyDedicated := if HasPinned(s, w) then s.anyDedicated else Some(AnyFlavour(s, w)))
  }

  function AfterClaim(s: State, id: Id, now: int): State {
    var claimed := ClaimRow(s, id, now);
    s.(rows := if Handed(s, Some(id)).Some? then claimed else Apply(claimed, Quarantine(id, now)),
       tasks := s.tasks - {id}, size := s.size - 1)
  }

  function AfterDequeue(s: State, w: T.Worker, choice: Option<Id>, now: int): State {
    if s.closed then s
    else if choice.None? then AfterSelect(s, w)
    else Drain(AfterClaim(AfterSelect(s, w), choice.value, now), now)
  }

  function ExpiredIds(rows: Rows, now: int): set<Id> {
    set id | id in rows && Expired(rows[id], now)
  }

  /** `reclaim-counts` finds the reclaimed rows by the time stamp of the sweep. */
  function StampedPending(rows: Rows, now: int): set<Id> {
    set id | id in rows && rows[id].status == Pending && rows[id].updatedAt == now
  }

  function AfterReclaim(s: State, now: int): State {
    if s.closed || ExpiredIds(s.rows, now) == {} then s
    else
      var rows := Apply(s.rows, Reclaim(now));
      s.(rows := rows, size := s.size + |StampedPending(rows, now)|)
  }

  function AfterMarkDone(s: State, id: Id): State {
    if s.closed then s
    else s.(rows := Apply(s.rows, Delete(id)), size := if id in s.rows && s.size > 0 then s.size - 1 else s.size)
  }

  function AfterMarkFailed(s: State, id: Id, now: int): State {
    if s.closed then s
    else s.(rows := Apply(s.rows, MarkFailed(id, now)),
            size := if Is(s.rows, id, Pending) && s.size > 0 then s.size - 1 else s.size)
  }

  function AfterVacuum(s: State, cutoff: int): State {
    if s.closed then s else s.(rows := Apply(s.rows, Vacuum(cutoff)))
  }

  function AfterPurge(s: State, now: int): State {
    if s.closed then s
    else
      var purged := Depth(s.rows);
      s.(rows := Apply(s.rows, Purge(now)), size := if purged > 0 then Max(0, s.size - purged) else s.size)
  }

  /** `peek` quarantines a row it has to materialize and cannot read. */
  function Peek(s: State, choice: Option<Id>, now: int): State {
    if s.closed || choice.None? || choice.value in s.tasks || choice.value !in s.rows || s.rows[choice.value].readable
    then s
    else s.(rows := Apply(s.rows, Quarantine(choice.value, now)))
  }

  function AfterDestroy(s: State): State {
    if s.closed then s
    else s.(closed := true, waiters := [], settled := s.settled + (set e | e in s.waiters :: e.id),
            tasks := {}, size := 0, anyDedicated := None)
  }

  /** `#recoverPending` puts unreadable pending rows aside. */
  function QuarantineUnreadable(rows: Rows, now: int): Rows {
    map id | id in rows ::
      if rows[id].status == Pending && !rows[id].readable
      then rows[id].(status := Failed, updatedAt := now)
      else rows[id]
  }

  /** A new instance on an existing table: sweep the expired claims, then rebuild the handles. */
  function Open(cfg: Config, rows: Rows, now: int): State {
    var recovered := QuarantineUnreadable(Apply(rows, Reclaim(now)), now);
    State(cfg, recovered, PendingIds(recovered), Depth(recovered), [], {}, None, false)
  }

  /**
   * Opening recovers everything it can: the handles and the cached count are
   * exactly the rows that can be read and were pending, or claimed under a
   * lease that ran out with budget left. No id is lost, and no row is left
   * claimed exactly when every claim found had a lease that ran out.
   */
  lemma OpenRecovers(cfg: Config, rows: Rows, now: int)
    ensures var s := Open(cfg, rows, now);
      && s.tasks == PendingIds(s.rows) && s.size == |s.tasks| == Depth(s.rows)
      && s.rows.Keys == rows.Keys
      && (forall id :: id in s.tasks <==>
            id in rows && rows[id].readable && (rows[id].status == Pending || id in RequeuedIds(rows, now)))
      && ((forall id :: id in s.rows ==> s.rows[id].status != Processing)
          <==> (forall id :: Is(rows, id, Processing) ==> Expired(rows[id], now)))
  {
    var s := Open(cfg, rows, now);
    forall id | id in rows
      ensures s.rows[id].status == Processing <==> Is(rows, id, Processing) && !Expired(rows[id], now)
    {
    }
  }

  /** Enqueuing a pending id again at the same priority keeps its place among all other rows. */
  lemma ReenqueueKeepsPlace(rows: Rows, e: Envelope, now: int, other: Id)
    requires Is(rows, e.id, Pending) && rows[e.id].priority == e.priority && other in rows && other != e.id
    ensures var t := Apply(rows, Upsert(e, now));
      && (Precedes(t[e.id], t[other]) <==> Precedes(rows[e.id], rows[other]))
      && (Precedes(t[other], t[e.id]) <==> Precedes(rows[other], rows[e.id]))
      && PendingIds(t) == PendingIds(rows)
  {
  }

  // ---- How each transaction moves the pending rows ----

  /** Rows a reclaim at `now` makes pending again. */
  function RequeuedIds(rows: Rows, now: int): set<Id> {
    set id | id in rows && Expired(rows[id], now) && rows[id].attempt + 1 <= rows[id].maxRetries
  }

  lemma PendingAfter(rows: Rows, t: Txn)
    requires Legal(rows, t)
    ensures PendingIds(Apply(rows, t)) ==
      match t
      case Upsert(e, _) => PendingIds(rows) + {e.id}
      case Claim(id, _, _, _) => PendingIds(rows) - {id}
      case Reclaim(now) => PendingIds(rows) + RequeuedIds(rows, now)
      case Delete(id) => PendingIds(rows) - {id}
      case MarkFailed(id, _) => PendingIds(rows) - {id}
      case Quarantine(id, _) => PendingIds(rows) - {id}
      case Vacuum(_) => PendingIds(rows)
      case Purge(_) => {}
  {
  }

  lemma DepthReclaimed(rows: Rows, now: int)
    ensures Depth(Apply(rows, Reclaim(now))) == Depth(rows) + |RequeuedIds(rows, now)|
  {
    PendingAfter(rows, Reclaim(now));
    assert PendingIds(rows) !! RequeuedIds(rows, now);
  }

  /**
   * The reclaim count is exact exactly when no other pending row carries the
   * sweep's own time stamp: the rows are found by stamp, not by what changed.
   */
  lemma ReclaimCountIff(rows: Rows, now: int)
    ensures |StampedPending(Apply(rows, Reclaim(now)), now)| == |RequeuedIds(rows, now)| + |StampedPending(rows, now)|
    ensures |StampedPending(Apply(rows, Reclaim(now)), now)| == |RequeuedIds(rows, now)|
            <==> forall id :: Is(rows, id, Pending) ==> rows[id].updatedAt != now
  {
    assert StampedPending(Apply(rows, Reclaim(now)), now) == RequeuedIds(rows, now) + StampedPending(rows, now);
    assert RequeuedIds(rows, now) !! StampedPending(rows, now);
    if StampedPending(rows, now) == {} {
      forall id | Is(rows, id, Pending) ensures rows[id].updatedAt != now {
        assert id !in StampedPending(rows, now);
      }
    } else {
      var id :| id in StampedPending(rows, now);
      assert StampedPending(rows, now) == {id} + (StampedPending(rows, now) - {id});
      assert |StampedPending(rows, now)| > 0;
    }
  }

  // ---- The cached count, one instance, an advancing clock ----

  ghost predicate Stamped(rows: Rows, clock: int) {
    forall id :: id in rows ==> rows[id].updatedAt <= clock && rows[id].readable
  }

  ghost predicate Bounded(s: State, clock: int) {
    s.size <= Depth(s.rows) && Stamped(s.rows, clock)
  }

  /** The waiters' ids are new to the table and to each other. */
  ghost predicate FreshWaiters(s: State) {
    && (forall e :: e in s.waiters ==> e.id !in s.rows)
    && (forall i, j :: 0 <= i < j < |s.waiters| ==> s.waiters[i].id != s.waiters[j].id)
  }

  ghost predicate Exact(s: State, clock: int) {
    s.size == Depth(s.rows) && Stamped(s.rows, clock) && FreshWaiters(s)
  }

  lemma InsertCount(s: State, e: Envelope, now: int)
    ensures var t := InsertRow(s, e, now);
      && Depth(t.rows) == Depth(s.rows) + (if Is(s.rows, e.id, Pending) then 0 else 1)
      && t.size == s.size + (if e.id in s.rows then 0 else 1)
      && (Stamped(s.rows, now) ==> Stamped(t.rows, now))
  {
    PendingAfter(s.rows, Upsert(e, now));
  }

  /** The count drifts on an insert exactly when it revives a row that was not pending. */
  lemma InsertDriftsIff(s: State, e: Envelope, now: int)
    ensures var t := InsertRow(s, e, now);
      Depth(t.rows) - t.size != Depth(s.rows) - s.size <==> e.id in s.rows && s.rows[e.id].status != Pending
  {
    InsertCount(s, e, now);
  }

  /** The count drifts on `markDone` exactly when the row was not pending, or was pending and not counted. */
  lemma DoneDriftsIff(s: State, id: Id)
    requires !s.closed
    ensures var t := AfterMarkDone(s, id);
      Depth(t.rows) - t.size != Depth(s.rows) - s.size
      <==> id in s.rows && (s.size > 0 <==> s.rows[id].status != Pending)
  {
    PendingAfter(s.rows, Delete(id));
  }

  lemma {:induction false} DrainBounded(s: State, now: int)
    requires Bounded(s, now)
    ensures Bounded(Drain(s, now), now)
    decreases |s.waiters|
  {
    if s.waiters != [] && s.size < s.cfg.max {
      var e, u := s.waiters[0], s.(waiters := s.waiters[1..]);
      if e.id in s.settled {
        DrainBounded(u, now);
      } else if Depth(s.rows) < s.cfg.max {
        InsertCount(u, e, now);
        DrainBounded(InsertRow(u, e, now), now);
      }
    }
  }

  lemma {:induction false} DrainExact(s: State, now: int)
    requires Exact(s, now)
    ensures Exact(Drain(s, now), now)
    decreases |s.waiters|
  {
    if s.waiters != [] && s.size < s.cfg.max {
      var e, u := s.waiters[0], s.(waiters := s.waiters[1..]);
      assert s.waiters == [e] + u.waiters;
      if e.id in s.settled {
        DrainExact(u, now);
      } else {
        InsertCount(u, e, now);
        DrainExact(InsertRow(u, e, now), now);
      }
    }
  }

  datatype Op =
    | OpEnqueue(env: Envelope)
    | OpDequeue(worker: T.Worker, choice: Option<Id>)
    | OpReclaim
    | OpMarkDone(id: Id)
    | OpMarkFailed(id: Id)
    | OpVacuum(cutoff: int)
    | OpPurge
    | OpPeek(choice: Option<Id>)
    | OpTimeout(index: nat)
    | OpSettle(id: Id)
    | OpDestroy

  datatype Event = Event(op: Op, now: int)

  function Timeout(s: State, index: nat): State {
    if index >= |s.waiters| then s
    else s.(waiters := s.waiters[..index] + s.waiters[index + 1..], settled := s.settled + {s.waiters[index].id})
  }

  function Step(s: State, ev: Event): State {
    match ev.op
    case OpEnqueue(e) => AfterEnqueue(s, e, ev.now)
    case OpDequeue(w, choice) => AfterDequeue(s, w, choice, ev.now)
    case OpReclaim => AfterReclaim(s, ev.now)
    case OpMarkDone(id) => AfterMarkDone(s, id)
    case OpMarkFailed(id) => AfterMarkFailed(s, id, ev.now)
    case OpVacuum(cutoff) => AfterVacuum(s, cutoff)
    case OpPurge => AfterPurge(s, ev.now)
    case OpPeek(choice) => Peek(s, choice, ev.now)
    case OpTimeout(k) => Timeout(s, k)
    case OpSettle(id) => s.(settled := s.settled + {id})
    case OpDestroy => AfterDestroy(s)
  }

  function Run(s: State, events: seq<Event>): State
    decreases |events|
  {
    if events == [] then s else Run(Step(s, events[0]), events[1..])
  }

  /** The clock advances between operations, and SELECTs return what they may. */
  ghost predicate Possible(s: State, events: seq<Event>, clock: int)
    decreases |events|
  {
    events != [] ==>
      && clock < events[0].now
      && (events[0].op.OpDequeue? ==> Chosen(s, events[0].op.worker, events[0].op.choice))
      && Possible(Step(s, events[0]), events[1..], events[0].now)
  }

  /** The operations that keep the count exact, an enqueue only with a new id. */
  predicate Accounted(s: State, op: Op) {
    && !op.OpMarkDone? && !op.OpDestroy?
    && (op.OpEnqueue? ==> op.env.id !in s.rows && forall e :: e in s.waiters ==> e.id != op.env.id)
  }

  ghost predicate AllAccounted(s: State, events: seq<Event>)
    decreases |events|
  {
    events != [] ==> Accounted(s, events[0].op) && AllAccounted(Step(s, events[0]), events[1..])
  }

  lemma ClaimCount(s: State, w: T.Worker, id: Id, now: int, clock: int)
    requires Stamped(s.rows, clock) && clock < now && Chosen(s, w, Some(id))
    ensures Is(s.rows, id, Pending) && Handed(s, Some(id)) == (if s.closed then None else Some(id))
    ensures Depth(ClaimRow(s, id, now)) == Depth(s.rows) - 1 && Stamped(ClaimRow(s, id, now), now)
    ensures ClaimRow(s, id, now).Keys == s.rows.Keys
  {
    assert id in Candidates(s, w);
    PendingAfter(s.rows, Claim(id, s.cfg.workerId, now, now + s.cfg.leaseMs));
  }

  lemma DequeueBounded(s: State, w: T.Worker, choice: Option<Id>, now: int, clock: int)
    requires Bounded(s, clock) && clock < now && Chosen(s, w, choice)
    ensures Bounded(AfterDequeue(s, w, choice, now), now)
  {
    if choice.Some? && !s.closed {
      ClaimCount(s, w, choice.value, now, clock);
      DrainBounded(AfterClaim(AfterSelect(s, w), choice.value, now), now);
    }
  }

  lemma DequeueExact(s: State, w: T.Worker, choice: Option<Id>, now: int, clock: int)
    requires Exact(s, clock) && clock < now && Chosen(s, w, choice)
    ensures Exact(AfterDequeue(s, w, choice, now), now)
  {
    if choice.Some? && !s.closed {
      ClaimCount(s, w, choice.value, now, clock);
      DrainExact(AfterClaim(AfterSelect(s, w), choice.value, now), now);
    }
  }

  lemma ReclaimCount(s: State, now: int, clock: int)
    requires Stamped(s.rows, clock) && clock < now
    ensures Depth(AfterReclaim(s, now).rows) - AfterReclaim(s, now).size == Depth(s.rows) - s.size
    ensures Stamped(AfterReclaim(s, now).rows, now)
    ensures AfterReclaim(s, now).rows.Keys == s.rows.Keys
  {
    DepthReclaimed(s.rows, now);
    ReclaimCountIff(s.rows, now);
  }

  lemma FailCount(s: State, id: Id, now: int, clock: int)
    requires Stamped(s.rows, clock) && clock < now && s.size <= Depth(s.rows)
    ensures var t := AfterMarkFailed(s, id, now);
      && t.size <= Depth(t.rows) && (s.size == Depth(s.rows) ==> t.size == Depth(t.rows))
      && Stamped(t.rows, now) && t.rows.Keys == s.rows.Keys
  {
    PendingAfter(s.rows, MarkFailed(id, now));
  }

  lemma DoneCount(s: State, id: Id, clock: int)
    requires Bounded(s, clock)
    ensures Bounded(AfterMarkDone(s, id), clock)
  {
    PendingAfter(s.rows, Delete(id));
  }

  lemma VacuumCount(s: State, cutoff: int, clock: int)
    requires Stamped(s.rows, clock)
    ensures var t := AfterVacuum(s, cutoff);
      && t.size == s.size && Depth(t.rows) == Depth(s.rows)
      && Stamped(t.rows, clock) && t.rows.Keys <= s.rows.Keys
  {
    PendingAfter(s.rows, Vacuum(cutoff));
  }

  lemma StepBounded(s: State, ev: Event, clock: int)
    requires Bounded(s, clock) && clock < ev.now
    requires ev.op.OpDequeue? ==> Chosen(s, ev.op.worker, ev.op.choice)
    ensures Bounded(Step(s, ev), ev.now)
  {
    match ev.op
    case OpEnqueue(e) =>
      if !s.closed && e.id !in s.settled && Depth(s.rows) < s.cfg.max {
        InsertCount(s, e, ev.now);
        DrainBounded(InsertRow(s, e, ev.now), ev.now);
      }
    case OpDequeue(w, choice) => DequeueBounded(s, w, choice, ev.now, clock);
    case OpReclaim => ReclaimCount(s, ev.now, clock);
    case OpMarkDone(id) => DoneCount(s, id, clock);
    case OpMarkFailed(id) => FailCount(s, id, ev.now, clock);
    case OpVacuum(cutoff) => VacuumCount(s, cutoff, clock);
    case _ =>
  }

  lemma TimeoutExact(s: State, k: nat, now: int, clock: int)
    requires Exact(s, clock) && clock < now
    ensures Exact(Timeout(s, k), now)
  {
    if k < |s.waiters| {
      var left := Timeout(s, k).waiters;
      forall i | 0 <= i < |left| ensures left[i] == s.waiters[if i < k then i else i + 1] {
      }
    }
  }

  lemma StepExact(s: State, ev: Event, clock: int)
    requires Exact(s, clock) && clock < ev.now && Accounted(s, ev.op)
    requires ev.op.OpDequeue? ==> Chosen(s, ev.op.worker, ev.op.choice)
    ensures Exact(Step(s, ev), ev.now)
  {
    match ev.op
    case OpEnqueue(e) =>
      if !s.closed && e.id !in s.settled && Depth(s.rows) < s.cfg.max {
        InsertCount(s, e, ev.now);
        DrainExact(InsertRow(s, e, ev.now), ev.now);
      }
    case OpDequeue(w, choice) => DequeueExact(s, w, choice, ev.now, clock);
    case OpReclaim => ReclaimCount(s, ev.now, clock);
    case OpMarkFailed(id) => FailCount(s, id, ev.now, clock);
    case OpVacuum(cutoff) => VacuumCount(s, cutoff, clock);
    case OpPurge =>
    case OpTimeout(k) => TimeoutExact(s, k, ev.now, clock);
    case _ =>
  }

  /** In every single-instance run the cached count never exceeds the pending rows. */
  lemma {:induction false} CountNeverAbove(s: State, events: seq<Event>, clock: int)
    requires Bounded(s, clock) && Possible(s, events, clock)
    ensures Run(s, events).size <= Depth(Run(s, events).rows)
    decreases |events|
  {
    if events != [] {
      StepBounded(s, events[0], clock);
      CountNeverAbove(Step(s, events[0]), events[1..], events[0].now);
    }
  }

  /** In runs without `markDone` that enqueue only new ids it equals them. */
  lemma {:induction false} CountExact(s: State, events: seq<Event>, clock: int)
    requires Exact(s, clock) && Possible(s, events, clock) && AllAccounted(s, events)
    ensures Run(s, events).size == Depth(Run(s, events).rows)
    decreases |events|
  {
    if events != [] {
      StepExact(s, events[0], clock);
      CountExact(Step(s, events[0]), events[1..], events[0].now);
    }
  }

  /** A new instance on a table of readable rows starts with an exact count. */
  lemma OpenExact(cfg: Config, rows: Rows, now: int)
    requires Stamped(rows, now)
    ensures Exact(Open(cfg, rows, now), now) && Bounded(Open(cfg, rows, now), now)
  {
    var reclaimed := Apply(rows, Reclaim(now));
    forall id | id in reclaimed ensures reclaimed[id].updatedAt <= now && reclaimed[id].readable {
      assert id in rows;
    }
  }

  /** Looking at the queue drifts the count exactly when it quarantines a pending row. */
  lemma PeekDriftsIff(s: State, id: Id, now: int)
    requires !s.closed && Is(s.rows, id, Pending)
    ensures var t := Peek(s, Some(id), now);
      && (Depth(t.rows) - t.size != Depth(s.rows) - s.size <==> id !in s.tasks && !s.rows[id].readable)
  {
    PendingAfter(s.rows, Quarantine(id, now));
  }

  // ---- The bound ----

  lemma {:induction false} DrainDepth(s: State, now: int)
    ensures Depth(Drain(s, now).rows) <= Max(Depth(s.rows), s.cfg.max)
    decreases |s.waiters|
  {
    if s.waiters != [] && s.size < s.cfg.max {
      var e, u := s.waiters[0], s.(waiters := s.waiters[1..]);
      if e.id in s.settled {
        DrainDepth(u, now);
      } else if Depth(s.rows) < s.cfg.max {
        InsertCount(u, e, now);
        DrainDepth(InsertRow(u, e, now), now);
      }
    }
  }

  lemma ClaimDepth(s: State, id: Id, now: int)
    requires Is(s.rows, id, Pending)
    ensures Depth(AfterClaim(s, id, now).rows) <= Depth(s.rows)
  {
    PendingAfter(s.rows, Claim(id, s.cfg.workerId, now, now + s.cfg.leaseMs));
    SubsetSize(PendingIds(ClaimRow(s, id, now)), PendingIds(s.rows));
    ShrinkDepth(ClaimRow(s, id, now), Quarantine(id, now));
  }

  lemma DequeueDepth(s: State, w: T.Worker, choice: Option<Id>, now: int)
    requires Chosen(s, w, choice)
    ensures Depth(AfterDequeue(s, w, choice, now).rows) <= Max(Depth(s.rows), s.cfg.max)
  {
    if !s.closed && choice.Some? {
      ClaimDepth(AfterSelect(s, w), choice.value, now);
      DrainDepth(AfterClaim(AfterSelect(s, w), choice.value, now), now);
    }
  }

  lemma SubsetSize(a: set<Id>, b: set<Id>)
    requires a <= b
    ensures |a| <= |b|
  {
    assert b == a + (b - a);
  }

  /** Transactions that release nothing never add a pending row. */
  lemma ShrinkDepth(rows: Rows, t: Txn)
    requires t.Delete? || t.MarkFailed? || t.Quarantine? || t.Vacuum? || t.Purge?
    ensures Depth(Apply(rows, t)) <= Depth(rows)
  {
    PendingAfter(rows, t);
    SubsetSize(PendingIds(Apply(rows, t)), PendingIds(rows));
  }

  lemma FinalDepth(s: State, ev: Event)
    requires ev.op.OpMarkDone? || ev.op.OpMarkFailed? || ev.op.OpVacuum? || ev.op.OpPurge? || ev.op.OpPeek?
    ensures Depth(Step(s, ev).rows) <= Depth(s.rows)
  {
    match ev.op
    case OpMarkDone(id) => ShrinkDepth(s.rows, Delete(id));
    case OpMarkFailed(id) => ShrinkDepth(s.rows, MarkFailed(id, ev.now));
    case OpVacuum(cutoff) => ShrinkDepth(s.rows, Vacuum(cutoff));
    case OpPurge => ShrinkDepth(s.rows, Purge(ev.now));
    case OpPeek(choice) =>
      if choice.Some? { ShrinkDepth(s.rows, Quarantine(choice.value, ev.now)); }
  }

  /**
   * The pending rows stay within the bound, or within what was there before:
   * one operation takes them beyond both if and only if it is a reclaim that
   * puts back more than there is room for. A reclaim tests no bound.
   */
  lemma BoundBrokenIff(s: State, ev: Event)
    requires ev.op.OpDequeue? ==> Chosen(s, ev.op.worker, ev.op.choice)
    ensures Depth(Step(s, ev).rows) > Max(Depth(s.rows), s.cfg.max) <==>
      && ev.op.OpReclaim? && !s.closed
      && RequeuedIds(s.rows, ev.now) != {} && Depth(s.rows) + |RequeuedIds(s.rows, ev.now)| > s.cfg.max
  {
    match ev.op
    case OpEnqueue(e) =>
      if !s.closed && e.id !in s.settled && Depth(s.rows) < s.cfg.max {
        InsertCount(s, e, ev.now);
        DrainDepth(InsertRow(s, e, ev.now), ev.now);
      }
    case OpDequeue(w, choice) => DequeueDepth(s, w, choice, ev.now);
    case OpReclaim => ReclaimDepth(s, ev.now);
    case OpTimeout(k) =>
    case OpSettle(id) =>
    case OpDestroy =>
    case _ => FinalDepth(s, ev);
  }

  lemma ReclaimDepth(s: State, now: int)
    ensures Depth(AfterReclaim(s, now).rows) == Depth(s.rows) + (if s.closed then 0 else |RequeuedIds(s.rows, now)|)
  {
    DepthReclaimed(s.rows, now);
    if ExpiredIds(s.rows, now) == {} {
      assert forall id :: id in RequeuedIds(s.rows, now) ==> id in ExpiredIds(s.rows, now);
    }
  }

  /** So in every run without a reclaim the table never exceeds the bound. */
  lemma {:induction false} BoundKept(s: State, events: seq<Event>, clock: int)
    requires Possible(s, events, clock) && (forall ev :: ev in events ==> !ev.op.OpReclaim?)
    ensures Depth(Run(s, events).rows) <= Max(Depth(s.rows), s.cfg.max)
    decreases |events|
  {
    if events != [] {
      assert events[0] in events;
      BoundBrokenIff(s, events[0]);
      StepConfig(s, events[0]);
      BoundKept(Step(s, events[0]), events[1..], events[0].now);
    }
  }

  lemma {:induction false} DrainConfig(s: State, now: int)
    ensures Drain(s, now).cfg == s.cfg
    decreases |s.waiters|
  {
    if s.waiters != [] && s.size < s.cfg.max {
      var e, u := s.waiters[0], s.(waiters := s.waiters[1..]);
      if e.id in s.settled {
        DrainConfig(u, now);
      } else if Depth(s.rows) < s.cfg.max {
        DrainConfig(InsertRow(u, e, now), now);
      }
    }
  }

  lemma StepConfig(s: State, ev: Event)
    ensures Step(s, ev).cfg == s.cfg
  {
    match ev.op
    case OpEnqueue(e) => DrainConfig(InsertRow(s, e, ev.now), ev.now);
    case OpDequeue(w, choice) =>
      if choice.Some? {
        DrainConfig(AfterClaim(AfterSelect(s, w), choice.value, ev.now), ev.now);
      }
    case _ =>
  }

  // ---- The order of the waiters ----

  /** The loop comes to a wanted waiter with room by the count but not in the table, and another one is behind it. */
  ghost predicate Rearms(s: State, now: int)
    decreases |s.waiters|
  {
    s.waiters != [] && s.size < s.cfg.max &&
    var e, u := s.waiters[0], s.(waiters := s.waiters[1..]);
    if e.id in s.settled then Rearms(u, now)
    else if Depth(s.rows) >= s.cfg.max then exists w :: w in u.waiters && w != e
    else Rearms(InsertRow(u, e, now), now)
  }

  /** How many of the waiters are still wanted. */
  function Wanted(waiters: seq<Envelope>, settled: set<Id>): nat {
    if waiters == [] then 0 else (if waiters[0].id in settled then 0 else 1) + Wanted(waiters[1..], settled)
  }

  /** The `k`-th waiter is the first wanted one that finds the table full, and it is not the last in line. */
  predicate Refused(s: State, k: nat) {
    && k + 1 < |s.waiters| && s.waiters[k].id !in s.settled
    && Wanted(s.waiters[..k], s.settled) == Max(0, s.cfg.max - Depth(s.rows))
  }

  /**
   * With waiters new to the table, in closed form: the loop stops so if and
   * only if the count is below both the bound and the pending rows, and the
   * first wanted waiter beyond the room in the table has another behind it.
   */
  lemma {:induction false} RearmsIff(s: State, now: int)
    requires FreshWaiters(s)
    ensures Rearms(s, now) <==> s.size < s.cfg.max && s.size < Depth(s.rows) && exists k :: Refused(s, k)
    decreases |s.waiters|
  {
    if s.waiters != [] && s.size < s.cfg.max {
      var e, u := s.waiters[0], s.(waiters := s.waiters[1..]);
      FreshTail(s, e, u);
      if e.id in s.settled {
        RearmsIff(u, now);
        RefusedTail(s, u);
      } else if Depth(s.rows) < s.cfg.max {
        InsertCount(u, e, now);
        RearmsIff(InsertRow(u, e, now), now);
        RefusedTail(s, InsertRow(u, e, now));
      } else {
        RefusedHead(s, u);
      }
    }
  }

  lemma FreshTail(s: State, e: Envelope, u: State)
    requires FreshWaiters(s) && s.waiters != [] && e == s.waiters[0] && u == s.(waiters := s.waiters[1..])
    ensures FreshWaiters(u) && e.id !in s.rows && forall w :: w in u.waiters ==> w.id != e.id
  {
    forall w | w in u.waiters ensures w.id != e.id && w.id !in s.rows {
      var i :| 0 <= i < |u.waiters| && u.waiters[i] == w;
      assert s.waiters[i + 1] == w;
    }
  }

  /** Who is refused is the same one place further down the line. */
  lemma RefusedTail(s: State, t: State)
    requires s.waiters != [] && t.waiters == s.waiters[1..] && t.settled == s.settled && t.cfg == s.cfg
    requires if s.waiters[0].id in s.settled then Depth(t.rows) == Depth(s.rows)
             else Depth(s.rows) < s.cfg.max && Depth(t.rows) == Depth(s.rows) + 1
    ensures (exists k :: Refused(s, k)) <==> (exists k :: Refused(t, k))
  {
    forall k | 0 <= k < |t.waiters| ensures Refused(t, k) <==> Refused(s, k + 1) {
      assert s.waiters[..k + 1][1..] == t.waiters[..k] && s.waiters[..k + 1][0] == s.waiters[0];
    }
    assert !Refused(s, 0);
    if k: nat :| Refused(s, k) {
      assert Refused(t, k - 1);
    }
    if k: nat :| Refused(t, k) {
      assert Refused(s, k + 1);
    }
  }

  /** In a full table it is the first wanted one. */
  lemma RefusedHead(s: State, u: State)
    requires s.waiters != [] && s.waiters[0].id !in s.settled && u == s.(waiters := s.waiters[1..])
    requires Depth(s.rows) >= s.cfg.max && forall w :: w in u.waiters ==> w.id != s.waiters[0].id
    ensures (exists k :: Refused(s, k)) <==> exists w :: w in u.waiters && w != s.waiters[0]
  {
    assert s.waiters[..0] == [];
    if k: nat :| Refused(s, k) {
      assert s.waiters[1] in u.waiters;
    }
    if w :| w in u.waiters && w != s.waiters[0] {
      assert Refused(s, 0);
    }
  }

  ghost predicate Suffix(rest: seq<Envelope>, all: seq<Envelope>) {
    exists k :: 0 <= k <= |all| && rest == all[k..]
  }

  lemma SuffixOfTail(rest: seq<Envelope>, all: seq<Envelope>)
    requires all != []
    ensures Suffix(rest, all[1..]) ==> Suffix(rest, all)
    ensures |rest| < |all| && Suffix(rest, all) ==> Suffix(rest, all[1..])
  {
    if Suffix(rest, all[1..]) {
      var k :| 0 <= k <= |all[1..]| && rest == all[1..][k..];
      assert rest == all[k + 1..];
    }
    if |rest| < |all| && Suffix(rest, all) {
      var k :| 0 <= k <= |all| && rest == all[k..];
      assert rest == all[1..][k - 1..];
    }
  }

  /** Turning a line of different waiters changes it. */
  lemma Turned(e: Envelope, rest: seq<Envelope>)
    ensures Suffix(rest + [e], [e] + rest) <==> forall w :: w in rest ==> w == e
  {
    var a, b := rest + [e], [e] + rest;
    if Suffix(a, b) {
      var k :| 0 <= k <= |b| && a == b[k..];
      assert a == b;
      AllSame(e, rest, |rest|);
      forall w | w in rest ensures w == e {
        var i :| 0 <= i < |rest| && rest[i] == w;
      }
    }
    if forall w :: w in rest ==> w == e {
      forall i | 0 <= i < |a| ensures a[i] == b[i] {
        assert i < |rest| ==> rest[i] in rest;
        assert i > 0 ==> rest[i - 1] in rest;
      }
      assert a == b[0..];
    }
  }

  lemma {:induction false} AllSame(e: Envelope, rest: seq<Envelope>, n: nat)
    requires rest + [e] == [e] + rest && n <= |rest|
    ensures forall i :: 0 <= i < n ==> rest[i] == e
    decreases n
  {
    if n > 0 {
      AllSame(e, rest, n - 1);
      assert (rest + [e])[n - 1] == rest[n - 1];
      assert ([e] + rest)[n - 1] == if n == 1 then e else rest[n - 2];
    }
  }

  lemma {:induction false} DrainShorter(s: State, now: int)
    ensures |Drain(s, now).waiters| <= |s.waiters|
    decreases |s.waiters|
  {
    if s.waiters != [] && s.size < s.cfg.max {
      var e, u := s.waiters[0], s.(waiters := s.waiters[1..]);
      if e.id in s.settled {
        DrainShorter(u, now);
      } else if Depth(s.rows) < s.cfg.max {
        DrainShorter(InsertRow(u, e, now), now);
      }
    }
  }

  /**
   * The waiters of the durable queue enter in call order only as long as the
   * count and the table agree: what waits after draining is the end of the
   * line that waited before, if and only if the loop does not stop at a wanted
   * waiter with another behind it while the count has room and the table not.
   */
  lemma {:induction false} DrainKeepsOrderIff(s: State, now: int)
    ensures Suffix(Drain(s, now).waiters, s.waiters) <==> !Rearms(s, now)
    decreases |s.waiters|
  {
    if s.waiters == [] || s.size >= s.cfg.max {
      assert s.waiters == s.waiters[0..];
    } else {
      var e, u := s.waiters[0], s.(waiters := s.waiters[1..]);
      assert s.waiters == [e] + u.waiters;
      if e.id in s.settled {
        DrainKeepsOrderIff(u, now);
        DrainShorter(u, now);
        SuffixOfTail(Drain(u, now).waiters, s.waiters);
      } else if Depth(s.rows) >= s.cfg.max {
        Turned(e, u.waiters);
      } else {
        var v := InsertRow(u, e, now);
        DrainKeepsOrderIff(v, now);
        DrainShorter(v, now);
        SuffixOfTail(Drain(v, now).waiters, s.waiters);
      }
    }
  }

  /** While the count is exact the order is kept. */
  lemma {:induction false} ExactKeepsOrder(s: State, now: int)
    requires Exact(s, now)
    ensures !Rearms(s, now) && Suffix(Drain(s, now).waiters, s.waiters)
    decreases |s.waiters|
  {
    DrainKeepsOrderIff(s, now);
    if s.waiters != [] && s.size < s.cfg.max {
      var e, u := s.waiters[0], s.(waiters := s.waiters[1..]);
      assert s.waiters == [e] + u.waiters;
      if e.id in s.settled {
        ExactKeepsOrder(u, now);
      } else {
        InsertCount(u, e, now);
        ExactKeepsOrder(InsertRow(u, e, now), now);
      }
    }
  }

  /**
   * Draining leaves no waiter while there is room by the count and in the
   * table; a wanted waiter that only the table turns away goes to the end.
   */
  lemma {:induction false} DrainEnds(s: State, now: int)
    ensures var t := Drain(s, now);
      && (t.waiters == [] || t.size >= t.cfg.max || Depth(t.rows) >= t.cfg.max)
      && t.settled == s.settled && t.cfg == s.cfg
    ensures s.waiters != [] && s.size < s.cfg.max <= Depth(s.rows) && s.waiters[0].id !in s.settled ==>
      Drain(s, now) == s.(waiters := s.waiters[1..] + [s.waiters[0]])
    decreases |s.waiters|
  {
    if s.waiters != [] && s.size < s.cfg.max {
      var e, u := s.waiters[0], s.(waiters := s.waiters[1..]);
      if e.id in s.settled {
        DrainEnds(u, now);
      } else if Depth(s.rows) < s.cfg.max {
        DrainEnds(InsertRow(u, e, now), now);
      }
    }
  }

  /** A row that is pending stays so while waiters are let in. */
  lemma {:induction false} DrainKeepsPending(s: State, now: int, id: Id)
    requires Is(s.rows, id, Pending)
    ensures Is(Drain(s, now).rows, id, Pending)
    decreases |s.waiters|
  {
    if s.waiters != [] && s.size < s.cfg.max {
      var e, u := s.waiters[0], s.(waiters := s.waiters[1..]);
      if e.id in s.settled {
        DrainKeepsPending(u, now, id);
      } else if Depth(s.rows) < s.cfg.max {
        DrainKeepsPending(InsertRow(u, e, now), now, id);
      }
    }
  }

  /**
   * A newcomer does not queue behind the waiters: it enters if and only if it
   * is wanted and the table has room. And it leaves every one of them waiting
   * if and only if, besides, the count is then full, or the first of them is
   * wanted and the table is then full.
   */
  lemma OvertakesIff(s: State, e: Envelope, now: int)
    requires !s.closed && s.waiters != [] && e.id !in s.rows && forall w :: w in s.waiters ==> w.id != e.id
    ensures var t := AfterEnqueue(s, e, now);
      && (Is(t.rows, e.id, Pending) <==> e.id !in s.settled && Depth(s.rows) < s.cfg.max)
      && (Is(t.rows, e.id, Pending) && |t.waiters| == |s.waiters| <==>
            && e.id !in s.settled && Depth(s.rows) < s.cfg.max
            && (s.size + 1 >= s.cfg.max || (s.waiters[0].id !in s.settled && Depth(s.rows) + 1 >= s.cfg.max)))
  {
    if e.id !in s.settled && Depth(s.rows) < s.cfg.max {
      var v := InsertRow(s, e, now);
      InsertCount(s, e, now);
      DrainKeepsPending(v, now, e.id);
      if v.size < v.cfg.max {
        var head, u := v.waiters[0], v.(waiters := v.waiters[1..]);
        if head.id in v.settled {
          DrainShorter(u, now);
        } else if Depth(v.rows) < v.cfg.max {
          DrainShorter(InsertRow(u, head, now), now);
        }
      }
    }
  }

  lemma {:induction false} RunPush(s: State, events: seq<Event>, ev: Event)
    ensures Run(s, events + [ev]) == Step(Run(s, events), ev)
    decreases |events|
  {
    if events == [] {
      assert [ev][1..] == [];
    } else {
      assert (events + [ev])[1..] == events[1..] + [ev];
      RunPush(Step(s, events[0]), events[1..], ev);
    }
  }

  lemma {:induction false} PossiblePush(s: State, events: seq<Event>, clock: int, ev: Event)
    requires Possible(s, events, clock)
    requires (if events == [] then clock else events[|events| - 1].now) < ev.now
    requires ev.op.OpDequeue? ==> Chosen(Run(s, events), ev.op.worker, ev.op.choice)
    ensures Possible(s, events + [ev], clock)
    decreases |events|
  {
    if events == [] {
      assert [ev][1..] == [];
    } else {
      assert (events + [ev])[1..] == events[1..] + [ev];
      PossiblePush(Step(s, events[0]), events[1..], events[0].now, ev);
    }
  }

  /** The history grows by one operation, at the next tick of the clock. */
  lemma Then(s: State, events: seq<Event>, op: Op) returns (longer: seq<Event>)
    requires Possible(s, events, 0) && (forall i :: 0 <= i < |events| ==> events[i].now == i + 1)
    requires op.OpDequeue? ==> Chosen(Run(s, events), op.worker, op.choice)
    ensures Possible(s, longer, 0) && |longer| == |events| + 1
    ensures forall i :: 0 <= i < |longer| ==> longer[i].now == i + 1
    ensures longer[..|events|] == events && longer[|events|].op == op
    ensures Run(s, longer) == Step(Run(s, events), Event(op, |events| + 1))
  {
    var ev := Event(op, |events| + 1);
    longer := events + [ev];
    RunPush(s, events, ev);
    PossiblePush(s, events, 0, ev);
  }

  /** An instance with one row in its table. */
  function OneRow(cfg: Config, id: Id, r: Row, size: int, waiters: seq<Envelope>): State {
    State(cfg, map[id := r], {id}, size, waiters, {}, None, false)
  }

  function RowOf(e: Envelope, status: Status, enqueued: int, updated: int): Row {
    Row(status, e.priority, e.affinity, e.attempts, e.retries, enqueued, updated, None, None, true)
  }

  lemma OneRowDepth(cfg: Config, id: Id, r: Row, size: int, waiters: seq<Envelope>)
    ensures Depth(OneRow(cfg, id, r, size, waiters).rows) == if r.status == Pending then 1 else 0
  {
    assert PendingIds(map[id := r]) == if r.status == Pending then {id} else {};
  }

  lemma FirstEnqueue(cfg: Config, a: Envelope)
    requires cfg.max >= 1
    ensures AfterEnqueue(Open(cfg, map[], 0), a, 1) == OneRow(cfg, a.id, RowOf(a, Pending, 1, 1), 1, [])
  {
    assert Open(cfg, map[], 0) == State(cfg, map[], {}, 0, [], {}, None, false) by {
      assert PendingIds(map[]) == {};
    }
    assert PendingIds(map[]) == {};
  }

  /** Overtaking is reached with room for one: the queued task fails, nobody is let in, a newcomer takes its place. */
  lemma OvertakeReached(cfg: Config, a: Envelope, b: Envelope, c: Envelope) returns (events: seq<Event>)
    requires cfg.max == 1 && a.id != b.id && b.id != c.id && c.id != a.id
    ensures Possible(Open(cfg, map[], 0), events, 0)
    ensures var t := Run(Open(cfg, map[], 0), events); Is(t.rows, c.id, Pending) && t.waiters == [b]
  {
    var s := Open(cfg, map[], 0);
    FirstEnqueue(cfg, a);
    events := Then(s, [], OpEnqueue(a));
    events := Then(s, events, OpEnqueue(b));
    events := Then(s, events, OpMarkFailed(a.id));
    var failed := OneRow(cfg, a.id, RowOf(a, Failed, 1, 3), 0, [b]);
    assert Run(s, events) == failed;
    OneRowDepth(cfg, a.id, RowOf(a, Failed, 1, 3), 0, [b]);
    events := Then(s, events, OpEnqueue(c));
    OvertakesIff(failed, c, 4);
  }

  /** One claim, with three tasks waiting and a count that is one too low. */
  lemma TurnedByClaim(cfg: Config, a: Envelope, b: Envelope, c: Envelope, d: Envelope)
    requires cfg.max == 1 && a.id != b.id
    ensures var s := OneRow(cfg, a.id, RowOf(a, Pending, 1, 3), 0, [b, c, d]);
      && Chosen(s, T.NoWorker, Some(a.id))
      && (var t := AfterDequeue(s, T.NoWorker, Some(a.id), 7); t.waiters == [d, c] && Is(t.rows, b.id, Pending))
  {
    var s := OneRow(cfg, a.id, RowOf(a, Pending, 1, 3), 0, [b, c, d]);
    assert AnyIds(s.rows, false) == {a.id};
    var v := AfterClaim(AfterSelect(s, T.NoWorker), a.id, 7);
    assert PendingIds(v.rows) == {} && v.size == -1 && v.settled == {};
    var u := InsertRow(v.(waiters := [c, d]), b, 7);
    InsertCount(v.(waiters := [c, d]), b, 7);
    assert v.waiters[1..] == [c, d] && Drain(v, 7) == Drain(u, 7);
    assert u.size == 0 && Depth(u.rows) == 1;
    assert u.waiters[1..] == [d] && [d] + [c] == [d, c];
    DrainKeepsPending(u, 7, b.id);
  }

  /** So is a turned line: a failed task enqueued again leaves the count too low, and the next claim turns the line. */
  lemma RearmReached(cfg: Config, a: Envelope, b: Envelope, c: Envelope, d: Envelope) returns (events: seq<Event>)
    requires cfg.max == 1 && a.id != b.id
    ensures Possible(Open(cfg, map[], 0), events, 0) && events != []
    ensures Run(Open(cfg, map[], 0), events[..|events| - 1]).waiters == [b, c, d]
    ensures var t := Run(Open(cfg, map[], 0), events); t.waiters == [d, c] && Is(t.rows, b.id, Pending)
  {
    var s := Open(cfg, map[], 0);
    var revived := RowOf(a, Pending, 1, 3);
    FirstEnqueue(cfg, a);
    events := Then(s, [], OpEnqueue(a));
    events := Then(s, events, OpMarkFailed(a.id));
    assert Run(s, events) == OneRow(cfg, a.id, RowOf(a, Failed, 1, 2), 0, []);
    OneRowDepth(cfg, a.id, RowOf(a, Failed, 1, 2), 0, []);
    events := Then(s, events, OpEnqueue(a));
    assert Run(s, events) == OneRow(cfg, a.id, revived, 0, []);
    events := ThreeWait(cfg, events, a.id, revived, b, c, d);
    TurnedByClaim(cfg, a, b, c, d);
    events := Then(s, events, OpDequeue(T.NoWorker, Some(a.id)));
  }

  /** Three more tasks find the table full. */
  lemma ThreeWait(cfg: Config, events: seq<Event>, id: Id, r: Row, b: Envelope, c: Envelope, d: Envelope)
    returns (longer: seq<Event>)
    requires cfg.max == 1 && r.status == Pending && |events| == 3
    requires Possible(Open(cfg, map[], 0), events, 0) && (forall i :: 0 <= i < |events| ==> events[i].now == i + 1)
    requires Run(Open(cfg, map[], 0), events) == OneRow(cfg, id, r, 0, [])
    ensures Possible(Open(cfg, map[], 0), longer, 0) && |longer| == 6
    ensures forall i :: 0 <= i < |longer| ==> longer[i].now == i + 1
    ensures Run(Open(cfg, map[], 0), longer) == OneRow(cfg, id, r, 0, [b, c, d])
  {
    var s := Open(cfg, map[], 0);
    longer := Then(s, events, OpEnqueue(b));
    longer := Then(s, longer, OpEnqueue(c));
    longer := Then(s, longer, OpEnqueue(d));
  }

  // ---- The other failures are reached too ----

  function Claimed(cfg: Config, a: Envelope): Row {
    RowOf(a, Processing, 1, 2).(claimedBy := Some(cfg.workerId), lease := Some(2 + cfg.leaseMs))
  }

  /** One task claimed, another queued after it. */
  function ClaimedAndQueued(cfg: Config, a: Envelope, b: Envelope): State {
    State(cfg, map[a.id := Claimed(cfg, a)][b.id := RowOf(b, Pending, 3, 3)], {b.id}, 1, [], {}, Some(false), false)
  }

  lemma OnePending(rows: Rows, id: Id)
    requires Is(rows, id, Pending) && forall o :: Is(rows, o, Pending) ==> o == id
    ensures PendingIds(rows) == AnyIds(rows, false) == {id} && Depth(rows) == 1
  {
    forall o | o in PendingIds(rows) ensures o == id {
      assert Is(rows, o, Pending);
    }
    assert PendingIds(rows) == {id} && AnyIds(rows, false) == PendingIds(rows);
  }

  lemma NonePending(rows: Rows)
    requires forall o :: !Is(rows, o, Pending)
    ensures PendingIds(rows) == {} && Depth(rows) == 0
  {
    forall id ensures id !in PendingIds(rows) {
      assert !Is(rows, id, Pending);
    }
  }

  /** A task is queued and claimed. */
  lemma ClaimOnly(cfg: Config, a: Envelope) returns (events: seq<Event>)
    requires cfg.max >= 1
    ensures Possible(Open(cfg, map[], 0), events, 0) && |events| == 2
    ensures forall i :: 0 <= i < |events| ==> events[i].now == i + 1
    ensures Run(Open(cfg, map[], 0), events)
         == State(cfg, map[a.id := Claimed(cfg, a)], {}, 0, [], {}, Some(false), false)
  {
    var s := Open(cfg, map[], 0);
    FirstEnqueue(cfg, a);
    events := Then(s, [], OpEnqueue(a));
    OnePending(Run(s, events).rows, a.id);
    events := Then(s, events, OpDequeue(T.NoWorker, Some(a.id)));
  }

  /** And another is queued after it. */
  lemma ClaimedRun(cfg: Config, a: Envelope, b: Envelope) returns (events: seq<Event>)
    requires cfg.max >= 1 && a.id != b.id
    ensures Possible(Open(cfg, map[], 0), events, 0) && |events| == 3
    ensures forall i :: 0 <= i < |events| ==> events[i].now == i + 1
    ensures Run(Open(cfg, map[], 0), events) == ClaimedAndQueued(cfg, a, b)
  {
    events := ClaimOnly(cfg, a);
    NonePending(map[a.id := Claimed(cfg, a)]);
    events := Then(Open(cfg, map[], 0), events, OpEnqueue(b));
  }

  /** The count drifts on a revived row. */
  lemma ReviveReached(cfg: Config, a: Envelope) returns (events: seq<Event>)
    requires cfg.max >= 1
    ensures Possible(Open(cfg, map[], 0), events, 0)
    ensures var t := Run(Open(cfg, map[], 0), events); t.size == 0 && Depth(t.rows) == 1
  {
    var s := Open(cfg, map[], 0);
    FirstEnqueue(cfg, a);
    events := Then(s, [], OpEnqueue(a));
    events := Then(s, events, OpMarkFailed(a.id));
    var failed := OneRow(cfg, a.id, RowOf(a, Failed, 1, 2), 0, []);
    assert Run(s, events) == failed;
    NonePending(failed.rows);
    events := Then(s, events, OpEnqueue(a));
    OnePending(Run(s, events).rows, a.id);
  }

  /** It drifts when a claimed task is done. */
  lemma DoneReached(cfg: Config, a: Envelope, b: Envelope) returns (events: seq<Event>)
    requires cfg.max >= 1 && a.id != b.id
    ensures Possible(Open(cfg, map[], 0), events, 0)
    ensures var t := Run(Open(cfg, map[], 0), events); t.size == 0 && Depth(t.rows) == 1
  {
    var s := Open(cfg, map[], 0);
    events := ClaimedRun(cfg, a, b);
    events := Then(s, events, OpMarkDone(a.id));
    OnePending(Run(s, events).rows, b.id);
  }

  /** A reclaim takes the table beyond its bound, for every length of the lease. */
  lemma BoundBrokenReached(cfg: Config, a: Envelope, b: Envelope) returns (events: seq<Event>)
    requires cfg.max == 1 && a.id != b.id && a.attempts + 1 <= a.retries
    ensures Possible(Open(cfg, map[], 0), events, 0)
    ensures var t := Run(Open(cfg, map[], 0), events); Depth(t.rows) == 2 > t.cfg.max
  {
    var s := Open(cfg, map[], 0);
    events := ClaimedRun(cfg, a, b);
    var u, now := ClaimedAndQueued(cfg, a, b), Max(4, 3 + cfg.leaseMs);
    var ev := Event(OpReclaim, now);
    RunPush(s, events, ev);
    PossiblePush(s, events, 0, ev);
    OnePending(u.rows, b.id);
    assert RequeuedIds(u.rows, now) == {a.id};
    ReclaimDepth(u, now);
    events := events + [ev];
  }

  /** A sweep in the millisecond of an enqueue counts the new row as reclaimed. */
  lemma StampReached(cfg: Config, a: Envelope, b: Envelope) returns (events: seq<Event>)
    requires cfg.max >= 2 && a.id != b.id && a.attempts + 1 <= a.retries
    ensures forall i, j :: 0 <= i < j < |events| ==> events[i].now <= events[j].now
    ensures var t := Run(Open(cfg, map[], 0), events); t.size == 3 && Depth(t.rows) == 2
  {
    var s, now := Open(cfg, map[], 0), Max(3, 3 + cfg.leaseMs);
    var claimed := State(cfg, map[a.id := Claimed(cfg, a)], {}, 0, [], {}, Some(false), false);
    events := ClaimOnly(cfg, a);
    RunPush(s, events, Event(OpEnqueue(b), now));
    NonePending(claimed.rows);
    var queued := claimed.(rows := claimed.rows[b.id := RowOf(b, Pending, now, now)], tasks := {b.id}, size := 1);
    assert Step(claimed, Event(OpEnqueue(b), now)) == queued;
    RunPush(s, events + [Event(OpEnqueue(b), now)], Event(OpReclaim, now));
    SweptTwo(queued, a, b, now);
    events := events + [Event(OpEnqueue(b), now)] + [Event(OpReclaim, now)];
  }

  lemma SweptTwo(s: State, a: Envelope, b: Envelope, now: int)
    requires a.id != b.id && a.attempts + 1 <= a.retries && !s.closed && s.size == 1 && now > 2 + s.cfg.leaseMs
    requires s.rows == map[a.id := Claimed(s.cfg, a)][b.id := RowOf(b, Pending, now, now)]
    ensures AfterReclaim(s, now).size == 3 && Depth(AfterReclaim(s, now).rows) == 2
  {
    OnePending(s.rows, b.id);
    assert RequeuedIds(s.rows, now) == {a.id} && StampedPending(s.rows, now) == {b.id};
    assert a.id in ExpiredIds(s.rows, now);
    ReclaimDepth(s, now);
    ReclaimCountIff(s.rows, now);
  }

  /** The count drifts on a look at the queue, once a sweep made a row pending that cannot be read. */
  lemma PeekReached(cfg: Config, id: Id, r: Row) returns (events: seq<Event>)
    requires r.status == Processing && r.lease.Some? && r.lease.value >= 0
    requires r.attempt + 1 <= r.maxRetries && !r.readable
    ensures Possible(Open(cfg, map[id := r], 0), events, 0)
    ensures var t := Run(Open(cfg, map[id := r], 0), events); t.size == 1 && Depth(t.rows) == 0
  {
    var s, now := Open(cfg, map[id := r], 0), r.lease.value + 1;
    var back := r.(attempt := r.attempt + 1, status := Pending, claimedBy := None, lease := None, updatedAt := now);
    NonePending(map[id := r]);
    assert s == State(cfg, map[id := r], {}, 0, [], {}, None, false);
    assert id in ExpiredIds(s.rows, now) && Apply(s.rows, Reclaim(now)) == map[id := back];
    var swept := Step(s, Event(OpReclaim, now));
    assert StampedPending(map[id := back], now) == {id};
    assert swept == s.(rows := map[id := back], size := 1);
    events := [Event(OpReclaim, now), Event(OpPeek(Some(id)), now + 1)];
    assert events[1..] == [Event(OpPeek(Some(id)), now + 1)];
    var t := Step(swept, events[1]);
    assert Run(s, events) == Run(swept, events[1..]) == t;
    NonePending(t.rows);
  }

  /** A dedicated worker takes a task pinned elsewhere, after a general one found the queue empty. */
  lemma PinTakenReached(cfg: Config, e: Envelope, w: T.Worker) returns (events: seq<Event>)
    requires cfg.max >= 1 && T.Dedicated(w) && e.affinity.Some? && e.affinity != T.TargetKey(w)
    ensures Possible(Open(cfg, map[], 0), events, 0) && |events| == 3
    ensures events[2].op == OpDequeue(w, Some(e.id))
    ensures Handed(Run(Open(cfg, map[], 0), events[..2]), Some(e.id)) == Some(e.id)
  {
    var s := Open(cfg, map[], 0);
    assert PendingIds(map[]) == {} && AnyIds(map[], false) == {};
    events := Then(s, [], OpDequeue(T.NoWorker, None));
    assert Run(s, events) == s.(anyDedicated := Some(false));
    events := Then(s, events, OpEnqueue(e));
    var u := OneRow(cfg, e.id, RowOf(e, Pending, 2, 2), 1, []).(anyDedicated := Some(false));
    assert Run(s, events) == u;
    OnePending(u.rows, e.id);
    assert Candidates(u, w) == {e.id};
    ghost var two := events;
    events := Then(s, events, OpDequeue(w, Some(e.id)));
    assert events[..2] == two;
  }

  // ---- Waiters while there is room ----

  /** A task waits although the table has room. */
  predicate WaitsWithRoom(s: State) {
    s.waiters != [] && Depth(s.rows) < s.cfg.max
  }

  /** An operation that makes room and lets nobody in. */
  predicate LeavesRoom(s: State, ev: Event) {
    s.waiters != [] && !s.closed
    && match ev.op
       case OpMarkDone(id) => Is(s.rows, id, Pending) && Depth(s.rows) <= s.cfg.max
       case OpMarkFailed(id) => Is(s.rows, id, Pending) && Depth(s.rows) <= s.cfg.max
       case OpPurge => s.cfg.max > 0
       case _ => false
  }

  /**
   * The durable queue can keep tasks waiting while there is room. From a state
   * in which nobody does, an operation leads there if and only if it is a
   * `markDone` or `markFailed` of a pending row that frees the first place, or
   * a purge: these end without draining.
   */
  lemma RoomLeftIff(s: State, ev: Event, clock: int)
    requires Bounded(s, clock) && clock < ev.now && !WaitsWithRoom(s)
    requires ev.op.OpDequeue? ==> Chosen(s, ev.op.worker, ev.op.choice)
    ensures WaitsWithRoom(Step(s, ev)) <==> LeavesRoom(s, ev)
  {
    match ev.op
    case OpEnqueue(e) => EnqueueFills(s, e, ev.now, clock);
    case OpDequeue(w, choice) => DequeueFills(s, w, choice, ev.now, clock);
    case OpReclaim => ReclaimDepth(s, ev.now);
    case OpMarkDone(id) => TakenOut(s.rows, Delete(id), id);
    case OpMarkFailed(id) => TakenOut(s.rows, MarkFailed(id, ev.now), id);
    case OpVacuum(cutoff) => PendingAfter(s.rows, Vacuum(cutoff));
    case OpPurge => PendingAfter(s.rows, Purge(ev.now));
    case OpPeek(choice) =>
    case OpTimeout(k) =>
    case OpSettle(id) =>
    case OpDestroy =>
  }

  lemma TakenOut(rows: Rows, t: Txn, id: Id)
    requires t == Delete(id) || (t.MarkFailed? && t.id == id)
    ensures Depth(Apply(rows, t)) == Depth(rows) - (if Is(rows, id, Pending) then 1 else 0)
  {
    PendingAfter(rows, t);
    if !Is(rows, id, Pending) {
      assert PendingIds(rows) - {id} == PendingIds(rows);
    }
  }

  lemma EnqueueFills(s: State, e: Envelope, now: int, clock: int)
    requires Bounded(s, clock) && clock < now && !WaitsWithRoom(s)
    ensures !WaitsWithRoom(AfterEnqueue(s, e, now))
  {
    if !s.closed && e.id !in s.settled && Depth(s.rows) < s.cfg.max {
      assert Drain(InsertRow(s, e, now), now) == InsertRow(s, e, now);
    }
  }

  lemma DequeueFills(s: State, w: T.Worker, choice: Option<Id>, now: int, clock: int)
    requires Bounded(s, clock) && clock < now && !WaitsWithRoom(s) && Chosen(s, w, choice)
    ensures !WaitsWithRoom(AfterDequeue(s, w, choice, now))
  {
    if !s.closed && choice.Some? {
      DequeueBounded(s, w, choice, now, clock);
      DrainEnds(AfterClaim(AfterSelect(s, w), choice.value, now), now);
    }
  }

  /** So in every run without these three tasks wait only while there is no room. */
  lemma {:induction false} WaitOnlyWhenFull(s: State, events: seq<Event>, clock: int)
    requires Bounded(s, clock) && !WaitsWithRoom(s) && Possible(s, events, clock)
    requires forall ev :: ev in events ==> !ev.op.OpMarkDone? && !ev.op.OpMarkFailed? && !ev.op.OpPurge?
    ensures !WaitsWithRoom(Run(s, events))
    decreases |events|
  {
    if events != [] {
      assert events[0] in events;
      RoomLeftIff(s, events[0], clock);
      StepBounded(s, events[0], clock);
      WaitOnlyWhenFull(Step(s, events[0]), events[1..], events[0].now);
    }
  }

  /** With no row pending, no `dequeue` lets a waiter in, however often it is called. */
  lemma {:induction false} EmptyTableBlocks(s: State, events: seq<Event>, clock: int)
    requires PendingIds(s.rows) == {} && Possible(s, events, clock) && forall ev :: ev in events ==> ev.op.OpDequeue?
    ensures Run(s, events).waiters == s.waiters && Run(s, events).rows == s.rows
    decreases |events|
  {
    if events != [] {
      assert events[0] in events;
      assert forall id :: id in Candidates(s, events[0].op.worker) ==> id in PendingIds(s.rows);
      EmptyTableBlocks(Step(s, events[0]), events[1..], events[0].now);
    }
  }

  /** Such a state is reached with room for one: the queued task fails, no row is pending, the next in line waits on. */
  lemma RoomLeftReached(cfg: Config, a: Envelope, b: Envelope) returns (events: seq<Event>)
    requires cfg.max == 1 && a.id != b.id
    ensures Possible(Open(cfg, map[], 0), events, 0) && |events| == 3
    ensures var t := Run(Open(cfg, map[], 0), events);
      && t.waiters == [b] && b.id !in t.settled && t.size == 0 && PendingIds(t.rows) == {} && WaitsWithRoom(t)
  {
    var s := Open(cfg, map[], 0);
    FirstEnqueue(cfg, a);
    events := Then(s, [], OpEnqueue(a));
    OneRowDepth(cfg, a.id, RowOf(a, Pending, 1, 1), 1, []);
    events := Then(s, events, OpEnqueue(b));
    assert Run(s, events) == OneRow(cfg, a.id, RowOf(a, Pending, 1, 1), 1, [b]);
    events := Then(s, events, OpMarkFailed(a.id));
    var failed := OneRow(cfg, a.id, RowOf(a, Failed, 1, 3), 0, [b]);
    assert Run(s, events) == failed;
    NonePending(failed.rows);
  }

  // ---- The cached statement ----

  /** With this cached flavour a dedicated worker only ever claims unpinned tasks and its own. */
  ghost predicate KeepsPins(cache: Option<bool>) {
    forall s: State, w, id :: s.anyDedicated == cache && T.Dedicated(w) && Chosen(s, w, Some(id)) ==>
      s.rows[id].affinity.None? || s.rows[id].affinity == T.TargetKey(w)
  }

  /** With this cached flavour a general worker finds a task whenever one is pending. */
  ghost predicate ServesAll(cache: Option<bool>) {
    forall s: State, w :: s.anyDedicated == cache && !T.Dedicated(w) && PendingIds(s.rows) != {} ==>
      Candidates(s, w) != {}
  }

  function OnePinned(cache: Option<bool>): State {
    var row := Row(Pending, 0, Some(7), 0, 0, 0, 0, None, None, true);
    State(Config(10, 1000, 0), map[0 := row], {0}, 1, [], {}, cache, false)
  }

  lemma OnePinnedIds(cache: Option<bool>)
    ensures AnyIds(OnePinned(cache).rows, false) == {0} && AnyIds(OnePinned(cache).rows, true) == {}
    ensures 0 in PendingIds(OnePinned(cache).rows)
  {
  }

  /** Affinity holds for dedicated workers exactly until a general worker was the first to run the shared statement. */
  lemma KeepsPinsIff(cache: Option<bool>)
    ensures KeepsPins(cache) <==> cache != Some(false)
  {
    if cache == Some(false) {
      var s, w := OnePinned(cache), T.Worker(None, None, true);
      OnePinnedIds(cache);
      assert Candidates(s, w) == {0};
      assert Chosen(s, w, Some(0));
    } else {
      forall s: State, w, id | s.anyDedicated == cache && T.Dedicated(w) && Chosen(s, w, Some(id))
        ensures s.rows[id].affinity.None? || s.rows[id].affinity == T.TargetKey(w)
      {
        assert id in Candidates(s, w);
      }
    }
  }

  /** And a general worker is served whatever is pending exactly until a dedicated one was the first. */
  lemma ServesAllIff(cache: Option<bool>)
    ensures ServesAll(cache) <==> cache != Some(true)
  {
    if cache == Some(true) {
      var s, w := OnePinned(cache), T.NoWorker;
      OnePinnedIds(cache);
      assert Candidates(s, w) == {};
    } else {
      forall s: State, w | s.anyDedicated == cache && !T.Dedicated(w) && PendingIds(s.rows) != {}
        ensures Candidates(s, w) != {}
      {
        var id :| id in PendingIds(s.rows);
        assert id in AnyIds(s.rows, false);
      }
    }
  }

  // ---- The classes ----

  /** The database file: its rows, and the log of everything committed to it. */
  class Database {
    var rows: Rows
    ghost const base: Rows
    ghost var log: seq<Txn>

    ghost predicate Valid()
      reads this
    {
      rows == Replay(base, log) && LegalLog(base, log)
    }

    constructor (rows: Rows)
      ensures Valid() && this.rows == rows && log == []
    {
      this.rows, base, log := rows, rows, [];
    }

    method Commit(t: Txn)
      requires Valid() && Legal(rows, t)
      modifies this
      ensures Valid() && rows == Apply(old(rows), t) && log == old(log) + [t]
    {
      rows := Apply(rows, t);
      log := log + [t];
      LegalAppend(base, old(log), t);
    }

    /** `ORDER BY ... LIMIT 1` over the given rows. */
    method SelectBest(ids: set<Id>) returns (choice: Option<Id>)
      requires ids <= rows.Keys
      ensures if ids == {} then choice.None? else choice.Some? && Best(rows, ids, choice.value)
    {
      choice := None;
      var rest := ids;
      while rest != {}
        invariant rest <= ids
        invariant choice.None? ==> rest == ids
        invariant choice.Some? ==> Best(rows, ids - rest, choice.value)
        decreases |rest|
      {
        var id :| id in rest;
        rest := rest - {id};
        if choice.None? || Precedes(rows[id], rows[choice.value]) {
          choice := Some(id);
        }
      }
      assert ids - rest == ids;
    }
  }

  lemma LegalAppend(base: Rows, log: seq<Txn>, t: Txn)
    requires LegalLog(base, log) && Legal(Replay(base, log), t)
    ensures LegalLog(base, log + [t]) && Replay(base, log + [t]) == Apply(Replay(base, log), t)
  {
    var longer := log + [t];
    assert longer[..|log|] == log;
    forall k | 0 <= k < |longer| ensures Legal(At(base, longer, k), longer[k]) {
      assert longer[..k] == log[..k];
      if k < |log| {
        assert Legal(At(base, log, k), log[k]);
      } else {
        assert log[..k] == log;
      }
    }
  }

  lemma NothingExpired(rows: Rows, now: int)
    requires |ExpiredIds(rows, now)| == 0
    ensures ExpiredIds(rows, now) == {} && Apply(rows, Reclaim(now)) == rows
  {
    forall id | id in rows ensures ReclaimRow(rows[id], now) == rows[id] {
      assert id !in ExpiredIds(rows, now);
    }
  }

  /** The rows with those of `ids` put aside as failed. */
  function PutAside(rows: Rows, ids: set<Id>, now: int): Rows {
    map id | id in rows :: if id in ids then rows[id].(status := Failed, updatedAt := now) else rows[id]
  }

  /** Those of `ids` that can be read, or that cannot. */
  function Readable(rows: Rows, ids: set<Id>, yes: bool): set<Id> {
    set id | id in ids && id in rows && rows[id].readable == yes
  }

  /** `#recoverPending` with the rows of `todo` still to come: the table now, and the handles so far. */
  ghost predicate Recovering(rows: Rows, todo: set<Id>, now: int, current: Rows, tasks: set<Id>) {
    && todo <= PendingIds(rows)
    && current == PutAside(rows, Readable(rows, PendingIds(rows) - todo, false), now)
    && tasks == Readable(rows, PendingIds(rows) - todo, true)
  }

  /** One more row, which is still as it was, is put aside or gets a handle. */
  lemma RecoverNext(rows: Rows, todo: set<Id>, id: Id, now: int, current: Rows, tasks: set<Id>)
    requires Recovering(rows, todo, now, current, tasks) && id in todo
    ensures id in current && current[id] == rows[id]
    ensures rows[id].readable ==> Recovering(rows, todo - {id}, now, current, tasks + {id})
    ensures !rows[id].readable ==> Recovering(rows, todo - {id}, now, Apply(current, Quarantine(id, now)), tasks)
  {
    var done := PendingIds(rows) - todo;
    assert PendingIds(rows) - (todo - {id}) == done + {id};
    if rows[id].readable {
      assert Readable(rows, done + {id}, false) == Readable(rows, done, false);
    } else {
      assert Readable(rows, done + {id}, true) == Readable(rows, done, true);
      assert Apply(current, Quarantine(id, now)) == PutAside(rows, Readable(rows, done + {id}, false), now);
    }
  }

  lemma RecoverLast(rows: Rows, now: int, current: Rows, tasks: set<Id>)
    requires Recovering(rows, {}, now, current, tasks)
    ensures current == QuarantineUnreadable(rows, now) && tasks == PendingIds(current)
  {
    assert PendingIds(rows) - {} == PendingIds(rows);
  }

  class SqliteTaskQueue {
    const db: Database
    const cfg: Config
    var tasks: set<Id>
    var size: int
    var waiters: seq<Envelope>
    var settled: set<Id>
    var anyDedicated: Option<bool>
    var closed: bool

    ghost function Abs(): State
      reads this, db
    {
      State(cfg, db.rows, tasks, size, waiters, settled, anyDedicated, closed)
    }

    constructor (db: Database, cfg: Config, now: int)
      requires db.Valid()
      modifies db
      ensures this.db == db && db.Valid() && old(db.log) <= db.log
      ensures Abs() == Open(cfg, old(db.rows), now)
    {
      this.db, this.cfg := db, cfg;
      tasks, size, waiters, settled, anyDedicated, closed := {}, 0, [], {}, None, false;
      new;
      var recovered := ReclaimExpired(now);
      assert db.rows == Apply(old(db.rows), Reclaim(now));
      RecoverPending(now);
    }

    /** One row of `#recoverPending`: quarantined when it cannot be read, else given a handle. */
    method RecoverRow(id: Id, now: int)
      requires db.Valid() && id in db.rows
      modifies `tasks, db
      ensures db.Valid() && old(db.log) <= db.log
      ensures old(db.rows)[id].readable ==> db.rows == old(db.rows) && tasks == old(tasks) + {id}
      ensures !old(db.rows)[id].readable ==> db.rows == Apply(old(db.rows), Quarantine(id, now)) && tasks == old(tasks)
    {
      if !db.rows[id].readable {
        db.Commit(Quarantine(id, now));
      } else {
        tasks := tasks + {id};
      }
    }

    method RecoverPending(now: int)
      requires db.Valid() && tasks == {}
      modifies `tasks, `size, db
      ensures db.Valid() && old(db.log) <= db.log
      ensures db.rows == QuarantineUnreadable(old(db.rows), now)
      ensures tasks == PendingIds(db.rows) && size == |tasks|
    {
      ghost var rows := db.rows;
      var todo := PendingIds(db.rows);
      while todo != {}
        invariant db.Valid() && old(db.log) <= db.log
        invariant Recovering(rows, todo, now, db.rows, tasks)
        decreases |todo|
      {
        var id :| id in todo;
        RecoverNext(rows, todo, id, now, db.rows, tasks);
        RecoverRow(id, now);
        todo := todo - {id};
      }
      RecoverLast(rows, now, db.rows, tasks);
      size := |tasks|;
    }

    method ReclaimExpired(now: int) returns (reclaimed: nat)
      requires db.Valid()
      modifies this, db
      ensures db.Valid() && old(db.log) <= db.log
      ensures Abs() == AfterReclaim(old(Abs()), now)
      ensures !old(closed) ==> db.rows == Apply(old(db.rows), Reclaim(now))
    {
      if closed {
        return 0;
      }
      var changed := |ExpiredIds(db.rows, now)|;
      db.Commit(Reclaim(now));
      if changed == 0 {
        NothingExpired(old(db.rows), now);
        return 0;
      }
      reclaimed := |StampedPending(db.rows, now)|;
      size := size + reclaimed;
    }

    method Store(e: Envelope, now: int)
      requires db.Valid()
      modifies this, db
      ensures db.Valid() && old(db.log) <= db.log
      ensures Abs() == InsertRow(old(Abs()), e, now)
    {
      var isNewRow := e.id !in db.rows;
      db.Commit(Upsert(e, now));
      tasks := tasks + {e.id};
      if isNewRow {
        size := size + 1;
      }
    }

    method Insert(e: Envelope, now: int) returns (ok: bool)
      requires db.Valid()
      modifies this, db
      ensures db.Valid() && old(db.log) <= db.log
      ensures ok == (Depth(old(db.rows)) < cfg.max)
      ensures Abs() == if ok then Drain(InsertRow(old(Abs()), e, now), now) else old(Abs())
      decreases |waiters|, 1
    {
      if Depth(db.rows) >= cfg.max {
        return false;
      }
      Store(e, now);
      DrainWaiters(now);
      return true;
    }

    method DrainWaiters(now: int)
      requires db.Valid()
      modifies this, db
      ensures db.Valid() && old(db.log) <= db.log
      ensures Abs() == Drain(old(Abs()), now)
      decreases |waiters|, 0
    {
      while |waiters| > 0 && size < cfg.max
        invariant db.Valid() && old(db.log) <= db.log && |waiters| <= |old(waiters)|
        invariant Drain(Abs(), now) == Drain(old(Abs()), now)
        decreases |waiters|
      {
        var next := waiters[0];
        waiters := waiters[1..];
        if next.id in settled {
          continue;
        }
        var ok := Insert(next, now);
        if !ok {
          waiters := waiters + [next];
        }
        return;
      }
    }

    method Enqueue(e: Envelope, now: int)
      requires db.Valid()
      modifies this, db
      ensures db.Valid() && old(db.log) <= db.log
      ensures Abs() == AfterEnqueue(old(Abs()), e, now)
    {
      if closed {
        settled := settled + {e.id};
        return;
      }
      if e.id in settled {
        return;
      }
      var ok := Insert(e, now);
      if !ok {
        waiters := waiters + [e];
      }
    }

    /** The SELECTs of `dequeue`; the second one is prepared by its first caller. */
    method SelectNext(w: T.Worker) returns (claimedId: Option<Id>)
      modifies `anyDedicated
      ensures Chosen(old(Abs()), w, claimedId)
      ensures Abs() == AfterSelect(old(Abs()), w)
    {
      var key := T.TargetKey(w);
      claimedId := None;
      if key.Some? {
        claimedId := db.SelectBest(PinnedIds(db.rows, key.value));
      }
      if claimedId.None? {
        if anyDedicated.None? {
          anyDedicated := Some(T.Dedicated(w));
        }
        claimedId := db.SelectBest(AnyIds(db.rows, anyDedicated.value));
      }
    }

    /** The claim of a selected row, and what becomes of its handle. */
    method ClaimSelected(id: Id, now: int) returns (handed: Option<Id>)
      requires db.Valid() && Is(db.rows, id, Pending) && !closed
      modifies this, db
      ensures db.Valid() && old(db.log) <= db.log
      ensures handed == Handed(old(Abs()), Some(id))
      ensures old(db.log) + [Claim(id, cfg.workerId, now, now + cfg.leaseMs)] <= db.log
      ensures Abs() == AfterClaim(old(Abs()), id, now)
    {
      db.Commit(Claim(id, cfg.workerId, now, now + cfg.leaseMs));
      var inMemory := id in tasks;
      tasks := tasks - {id};
      size := size - 1;
      if !inMemory && !db.rows[id].readable {
        db.Commit(Quarantine(id, now));
        return None;
      }
      return Some(id);
    }

    method Dequeue(w: T.Worker, now: int) returns (handed: Option<Id>, ghost choice: Option<Id>)
      requires db.Valid()
      modifies this, db
      ensures db.Valid() && old(db.log) <= db.log
      ensures !old(closed) ==> Chosen(old(Abs()), w, choice)
      ensures Abs() == AfterDequeue(old(Abs()), w, choice, now) && handed == Handed(old(Abs()), choice)
    {
      if closed {
        return None, None;
      }
      var claimedId := SelectNext(w);
      choice := claimedId;
      if claimedId.None? {
        return None, None;
      }
      assert claimedId.value in Candidates(old(Abs()), w);
      handed := ClaimSelected(claimedId.value, now);
      DrainWaiters(now);
    }

    /** The statement of `markDone`: it notes whether there was a row to delete. */
    method CommitDone(id: Id) returns (found: bool)
      requires db.Valid()
      modifies db
      ensures db.Valid() && old(db.log) <= db.log
      ensures db.rows == Apply(old(db.rows), Delete(id)) && found == (id in old(db.rows))
    {
      found := id in db.rows;
      db.Commit(Delete(id));
    }

    method MarkDone(id: Id)
      requires db.Valid()
      modifies `size, db
      ensures db.Valid() && old(db.log) <= db.log
      ensures Abs() == AfterMarkDone(old(Abs()), id)
    {
      if closed {
        return;
      }
      var found := CommitDone(id);
      if found && size > 0 {
        size := size - 1;
      }
    }

    /** The transaction of `markFailed`: it notes whether the row was pending. */
    method CommitFailed(id: Id, now: int) returns (wasPending: bool)
      requires db.Valid()
      modifies db
      ensures db.Valid() && old(db.log) <= db.log
      ensures db.rows == Apply(old(db.rows), MarkFailed(id, now)) && wasPending == Is(old(db.rows), id, Pending)
    {
      wasPending := id in db.rows && db.rows[id].status == Pending;
      db.Commit(MarkFailed(id, now));
    }

    method MarkTaskFailed(id: Id, now: int)
      requires db.Valid()
      modifies `size, db
      ensures db.Valid() && old(db.log) <= db.log
      ensures Abs() == AfterMarkFailed(old(Abs()), id, now)
    {
      if closed {
        return;
      }
      var wasPending := CommitFailed(id, now);
      if wasPending && size > 0 {
        size := size - 1;
      }
    }

    method VacuumCompleted(cutoff: int)
      requires db.Valid()
      modifies this, db
      ensures db.Valid() && old(db.log) <= db.log
      ensures Abs() == AfterVacuum(old(Abs()), cutoff)
    {
      if !closed {
        db.Commit(Vacuum(cutoff));
      }
    }

    method PurgePending(now: int) returns (purged: nat)
      requires db.Valid()
      modifies this, db
      ensures db.Valid() && old(db.log) <= db.log
      ensures Abs() == AfterPurge(old(Abs()), now)
      ensures purged == if old(closed) then 0 else Depth(old(db.rows))
    {
      if closed {
        return 0;
      }
      purged := Depth(db.rows);
      db.Commit(Purge(now));
      if purged > 0 {
        size := if size - purged > 0 then size - purged else 0;
      }
    }

    method Destroy()
      modifies this
      ensures Abs() == AfterDestroy(old(Abs()))
    {
      if closed {
        return;
      }
      closed := true;
      settled := settled + set e | e in waiters :: e.id;
      waiters, tasks, size, anyDedicated := [], {}, 0, None;
    }
  }
}
