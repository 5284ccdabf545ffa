/**
 * What the calls of the durable queue do to its rows, its handles and its
 * waiters (src/queue/sqlite-backend.js), and what that means for a whole run
 * of one instance.
 */
module DurableSteps {
  import opened Prelude
  import opened LeaseTable
  import opened SqliteQueue
  import L = Lifecycles
  import T = TaskQueues

  /** Somebody still wanted waits under this id. */
  ghost predicate Waits(s: State, id: Id) {
    id !in s.settled && exists w :: w in s.waiters && w.id == id
  }

  predicate SameRow(rows: Rows, later: Rows, id: Id) {
    (id in later <==> id in rows) && (id in rows ==> later[id] == rows[id])
  }

  /** Letting waiters in changes nothing under an id that nobody waits for, and settles nobody. */
  lemma {:induction false} DrainTouches(s: State, now: int, id: Id)
    requires !Waits(s, id)
    ensures var t := Drain(s, now);
      && SameRow(s.rows, t.rows, id) && (id in t.tasks <==> id in s.tasks)
      && t.settled == s.settled && t.closed == s.closed
    decreases |s.waiters|
  {
    if s.waiters != [] && s.size < s.cfg.max {
      var e, u := s.waiters[0], s.(waiters := s.waiters[1..]);
      assert s.waiters == [e] + u.waiters;
      assert e in s.waiters;
      if e.id in s.settled {
        DrainTouches(u, now, id);
      } else if Depth(s.rows) < s.cfg.max {
        DrainTouches(InsertRow(u, e, now), now, id);
      }
    }
  }

  /** A row that a waiter's entry changes is pending and has a handle. */
  lemma {:induction false} DrainAdmits(s: State, now: int, id: Id)
    ensures var t := Drain(s, now);
      || (SameRow(s.rows, t.rows, id) && (id in t.tasks <==> id in s.tasks))
      || (Is(t.rows, id, Pending) && id in t.tasks)
    decreases |s.waiters|
  {
    if s.waiters != [] && s.size < s.cfg.max {
      var e, u := s.waiters[0], s.(waiters := s.waiters[1..]);
      if e.id in s.settled {
        DrainAdmits(u, now, id);
      } else if Depth(s.rows) < s.cfg.max {
        DrainAdmits(InsertRow(u, e, now), now, id);
      }
    }
  }

  /** A closed queue rejects the task, a settled task is ignored; any other is queued, or waits last. */
  lemma EnqueueTells(s: State, e: Envelope, now: int, id: Id)
    ensures var t := AfterEnqueue(s, e, now);
      && (t.settled == if s.closed then s.settled + {e.id} else s.settled)
      && (s.closed || e.id in s.settled ==> t.rows == s.rows && t.waiters == s.waiters && t.tasks == s.tasks)
      && (!s.closed && e.id !in s.settled && Depth(s.rows) >= s.cfg.max ==>
            t.rows == s.rows && t.waiters == s.waiters + [e] && t.tasks == s.tasks)
      && (!s.closed && e.id !in s.settled && Depth(s.rows) < s.cfg.max ==>
            Is(t.rows, e.id, Pending) && e.id in t.tasks)
      && (id != e.id && !Waits(s, id) ==> SameRow(s.rows, t.rows, id))
  {
    if !s.closed && e.id !in s.settled && Depth(s.rows) < s.cfg.max {
      var u := InsertRow(s, e, now);
      DrainAdmits(u, now, e.id);
      DrainSettles(u, now);
      if id != e.id && !Waits(s, id) {
        assert !Waits(u, id);
        DrainTouches(u, now, id);
      }
    }
  }

  lemma {:induction false} DrainSettles(s: State, now: int)
    ensures Drain(s, now).settled == s.settled
    decreases |s.waiters|
  {
    if s.waiters != [] && s.size < s.cfg.max {
      var e, u := s.waiters[0], s.(waiters := s.waiters[1..]);
      if e.id in s.settled {
        DrainSettles(u, now);
      } else if Depth(s.rows) < s.cfg.max {
        DrainSettles(InsertRow(u, e, now), now);
      }
    }
  }

  /**
   * A claim: the row chosen is handed out if and only if it has a handle or can
   * be read. Then it is processing for this instance until now + leaseMs, and
   * else it is failed; its handle is gone, and no other row changes except
   * those of waiters let in.
   */
  lemma ClaimTells(s: State, w: T.Worker, id: Id, now: int, other: Id)
    requires !s.closed && Chosen(s, w, Some(id)) && !Waits(s, id)
    ensures var t := AfterDequeue(s, w, Some(id), now); var handed := id in s.tasks || s.rows[id].readable;
      && id in s.rows && id in t.rows && id !in t.tasks
      && (Handed(s, Some(id)) == if handed then Some(id) else None)
      && (handed ==> t.rows[id].status == Processing && t.rows[id].claimedBy == Some(s.cfg.workerId)
                     && t.rows[id].lease == Some(now + s.cfg.leaseMs))
      && (!handed ==> t.rows[id].status == Failed)
      && (other != id && !Waits(s, other) ==>
            SameRow(s.rows, t.rows, other) && (other in t.tasks <==> other in s.tasks))
  {
    assert id in Candidates(s, w);
    var u := AfterClaim(AfterSelect(s, w), id, now);
    DrainTouches(u, now, id);
    if !Waits(s, other) {
      DrainTouches(u, now, other);
    }
  }

  /** A dequeue that finds nothing, or a closed queue, hands out nothing and changes no row. */
  lemma NothingHanded(s: State, w: T.Worker, now: int)
    ensures var t := AfterDequeue(s, w, None, now);
      Handed(s, None).None? && t.rows == s.rows && t.tasks == s.tasks && t.waiters == s.waiters && t.size == s.size
  {
  }

  /** `markFailed` fails the row whatever it was, `markDone` removes it, and nothing else changes but the count. */
  lemma MarksTell(s: State, id: Id, now: int, other: Id)
    requires !s.closed
    ensures var failed, done := AfterMarkFailed(s, id, now), AfterMarkDone(s, id);
      && L.FailedOrGone(failed.rows, id) && id !in done.rows
      && (id in failed.rows <==> id in s.rows)
      && (other != id ==> SameRow(s.rows, failed.rows, other) && SameRow(s.rows, done.rows, other))
      && failed.waiters == done.waiters == s.waiters && failed.settled == done.settled == s.settled
      && failed.tasks == done.tasks == s.tasks
  {
  }

  /** A reclaim commits its sweep whether or not it finds anything, and makes no handles. */
  lemma ReclaimTells(s: State, now: int)
    requires !s.closed
    ensures var t := AfterReclaim(s, now);
      t.rows == Apply(s.rows, Reclaim(now)) && t.tasks == s.tasks && t.waiters == s.waiters && t.settled == s.settled
  {
    if ExpiredIds(s.rows, now) == {} {
      forall id | id in s.rows ensures ReclaimRow(s.rows[id], now) == s.rows[id] {
        assert id !in ExpiredIds(s.rows, now);
      }
      assert Apply(s.rows, Reclaim(now)) == s.rows;
    }
  }

  /** A purge fails exactly the pending rows, a vacuum drops exactly the failed rows older than the cutoff. */
  lemma SweepsTell(s: State, now: int, cutoff: int, id: Id)
    requires !s.closed && id in s.rows
    ensures var purged, vacuumed, r := AfterPurge(s, now), AfterVacuum(s, cutoff), s.rows[id];
      && id in purged.rows
      && (if r.status == Pending then purged.rows[id].status == Failed else purged.rows[id] == r)
      && (id !in vacuumed.rows <==> r.status == Failed && r.updatedAt < cutoff)
      && (id in vacuumed.rows ==> vacuumed.rows[id] == r)
      && purged.waiters == vacuumed.waiters == s.waiters && vacuumed.size == s.size
  {
  }

  /** Looking fails the row at the head exactly if it has no handle and cannot be read, and touches no other. */
  lemma PeekTells(s: State, id: Id, now: int, other: Id)
    requires !s.closed && Is(s.rows, id, Pending)
    ensures var t := Peek(s, Some(id), now);
      && (if id !in s.tasks && !s.rows[id].readable then Is(t.rows, id, Failed) else t.rows == s.rows)
      && (other != id ==> SameRow(s.rows, t.rows, other)) && t.waiters == s.waiters && t.size == s.size
  {
  }

  /** A timeout turns its waiter away, and closing all of them: their tasks are settled, and no row changes. */
  lemma TurnedAway(s: State, k: nat, e: Envelope)
    requires k < |s.waiters| && e in s.waiters && !s.closed
    ensures var t, closed := Timeout(s, k), AfterDestroy(s);
      && s.waiters[k].id in t.settled && |t.waiters| == |s.waiters| - 1 && t.rows == s.rows
      && (forall i :: 0 <= i < |t.waiters| ==> t.waiters[i] == s.waiters[if i < k then i else i + 1])
      && closed.closed && closed.waiters == [] && closed.tasks == {} && closed.size == 0 && closed.rows == s.rows
      && closed.anyDedicated.None?
      && e.id in closed.settled && s.settled <= closed.settled
  {
  }

  /** A closed queue keeps its rows for the next instance: whatever is called, nothing changes but who is settled. */
  lemma {:induction false} ClosedKeepsRows(s: State, events: seq<Event>)
    requires s.closed && s.waiters == []
    ensures var t := Run(s, events); t == s.(settled := t.settled)
    decreases |events|
  {
    if events != [] {
      ClosedKeepsRows(Step(s, events[0]), events[1..]);
    }
  }

  /** Who is settled by a call: a rejected newcomer, a waiter turned away, whoever it is told about. */
  lemma SettledTells(s: State, ev: Event, id: Id)
    ensures id in Step(s, ev).settled <==>
      || id in s.settled
      || (s.closed && ev.op.OpEnqueue? && ev.op.env.id == id)
      || (ev.op.OpTimeout? && ev.op.index < |s.waiters| && s.waiters[ev.op.index].id == id)
      || ev.op == OpSettle(id)
      || (ev.op == OpDestroy && !s.closed && exists w :: w in s.waiters && w.id == id)
  {
    match ev.op
    case OpEnqueue(e) => EnqueueTells(s, e, ev.now, id);
    case OpDequeue(w, choice) =>
      if !s.closed && choice.Some? { DrainSettles(AfterClaim(AfterSelect(s, w), choice.value, ev.now), ev.now); }
    case _ =>
  }

  /** The shared statement gets its flavour from the first call that has to use it, and from no other. */
  lemma StatementIff(s: State, w: T.Worker)
    ensures var t := AfterSelect(s, w);
      && t == s.(anyDedicated := t.anyDedicated)
      && (t.anyDedicated != s.anyDedicated <==> s.anyDedicated.None? && !HasPinned(s, w))
      && (t.anyDedicated != s.anyDedicated ==> t.anyDedicated == Some(T.Dedicated(w)))
  {
  }

  /** `markFailed` makes the count drift if and only if the row was pending and the count was not positive. */
  lemma FailDriftsIff(s: State, id: Id, now: int)
    requires !s.closed
    ensures var t := AfterMarkFailed(s, id, now);
      Depth(t.rows) - t.size != Depth(s.rows) - s.size <==> Is(s.rows, id, Pending) && s.size <= 0
  {
    TakenOut(s.rows, MarkFailed(id, now), id);
  }

  /** A purge that finds nothing leaves the count; else it takes what was purged off it, but not below zero. */
  lemma PurgeCounts(s: State, now: int)
    requires !s.closed
    ensures var t := AfterPurge(s, now);
      && Depth(t.rows) == 0
      && (Depth(s.rows) == 0 ==> t == s)
      && (Depth(s.rows) > 0 ==>
            t.size >= 0 && (t.size == s.size - Depth(s.rows) || (t.size == 0 && s.size < Depth(s.rows))))
  {
    PendingAfter(s.rows, Purge(now));
    if Depth(s.rows) == 0 {
      forall id | id in s.rows ensures s.rows[id].status != Pending {
        assert id !in PendingIds(s.rows);
      }
      assert Apply(s.rows, Purge(now)) == s.rows;
    }
  }

  // ---- Over whole runs of one instance ----

  /** No claimed row has a handle left here: whoever gets it back after a reclaim gets a task made anew. */
  ghost predicate HandedOver(s: State) {
    forall id :: Is(s.rows, id, Processing) ==> id !in s.tasks
  }

  lemma DrainHandedOver(s: State, now: int)
    requires HandedOver(s)
    ensures HandedOver(Drain(s, now))
  {
    forall id | Is(Drain(s, now).rows, id, Processing) ensures id !in Drain(s, now).tasks {
      DrainAdmits(s, now, id);
    }
  }

  lemma StepHandedOver(s: State, ev: Event)
    requires HandedOver(s) && (ev.op.OpDequeue? ==> Chosen(s, ev.op.worker, ev.op.choice))
    ensures HandedOver(Step(s, ev))
  {
    match ev.op
    case OpEnqueue(e) =>
      if !s.closed && e.id !in s.settled && Depth(s.rows) < s.cfg.max {
        DrainHandedOver(InsertRow(s, e, ev.now), ev.now);
      }
    case OpDequeue(w, choice) =>
      if !s.closed && choice.Some? {
        DrainHandedOver(AfterClaim(AfterSelect(s, w), choice.value, ev.now), ev.now);
      }
    case OpReclaim => if !s.closed { ReclaimTells(s, ev.now); }
    case _ =>
  }

  lemma {:induction false} RunHandedOver(s: State, events: seq<Event>, clock: int)
    requires HandedOver(s) && Possible(s, events, clock)
    ensures HandedOver(Run(s, events))
    decreases |events|
  {
    if events != [] {
      StepHandedOver(s, events[0]);
      RunHandedOver(Step(s, events[0]), events[1..], events[0].now);
    }
  }

  /** In every run from an opened table, every claim gave its handle away. */
  lemma HandlesGiven(cfg: Config, rows: Rows, now: int, events: seq<Event>)
    requires Possible(Open(cfg, rows, now), events, now)
    ensures forall id :: Is(Run(Open(cfg, rows, now), events).rows, id, Processing) ==>
              id !in Run(Open(cfg, rows, now), events).tasks
  {
    assert HandedOver(Open(cfg, rows, now));
    RunHandedOver(Open(cfg, rows, now), events, now);
  }

  /** Nobody brings this id back: no call enqueues it and no waiter has it. */
  ghost predicate Forgotten(s: State, events: seq<Event>, id: Id) {
    && (forall w :: w in s.waiters ==> w.id != id)
    && (forall ev :: ev in events && ev.op.OpEnqueue? ==> ev.op.env.id != id)
  }

  lemma {:induction false} DrainForgets(s: State, now: int, id: Id)
    requires forall w :: w in s.waiters ==> w.id != id
    ensures forall w :: w in Drain(s, now).waiters ==> w.id != id
    decreases |s.waiters|
  {
    if s.waiters != [] && s.size < s.cfg.max {
      var e, u := s.waiters[0], s.(waiters := s.waiters[1..]);
      assert s.waiters == [e] + u.waiters;
      if e.id in s.settled {
        DrainForgets(u, now, id);
      } else if Depth(s.rows) < s.cfg.max {
        DrainForgets(InsertRow(u, e, now), now, id);
      }
    }
  }

  lemma FailedStep(s: State, ev: Event, id: Id)
    requires L.FailedOrGone(s.rows, id) && (forall w :: w in s.waiters ==> w.id != id)
    requires ev.op.OpEnqueue? ==> ev.op.env.id != id
    requires ev.op.OpDequeue? ==> Chosen(s, ev.op.worker, ev.op.choice)
    ensures L.FailedOrGone(Step(s, ev).rows, id) && forall w :: w in Step(s, ev).waiters ==> w.id != id
  {
    match ev.op
    case OpEnqueue(e) =>
      EnqueueTells(s, e, ev.now, id);
      DrainForgets(InsertRow(s, e, ev.now), ev.now, id);
    case OpDequeue(w, choice) =>
      if !s.closed && choice.Some? {
        assert choice.value in Candidates(s, w);
        var u := AfterClaim(AfterSelect(s, w), choice.value, ev.now);
        DrainTouches(u, ev.now, id);
        DrainForgets(u, ev.now, id);
      }
    case OpReclaim => if !s.closed { ReclaimTells(s, ev.now); }
    case _ =>
  }

  /**
   * A result is final: after `markFailed` or `markDone` of an id, claimed or not,
   * no run of the instance has it pending or processing again, unless it is
   * enqueued again.
   */
  lemma {:induction false} ResultIsFinal(s: State, events: seq<Event>, clock: int, id: Id)
    requires L.FailedOrGone(s.rows, id) && Forgotten(s, events, id) && Possible(s, events, clock)
    ensures L.FailedOrGone(Run(s, events).rows, id)
    decreases |events|
  {
    if events != [] {
      assert events[0] in events;
      FailedStep(s, events[0], id);
      ResultIsFinal(Step(s, events[0]), events[1..], events[0].now, id);
    }
  }

  /** So with room for a task: enqueued, claimed and marked failed it stays failed, however its lease ends. */
  lemma FailedAfterClaim(cfg: Config, a: Envelope, more: seq<Event>) returns (events: seq<Event>)
    requires cfg.max >= 1
    requires forall ev :: ev in more && ev.op.OpEnqueue? ==> ev.op.env.id != a.id
    ensures var s := Open(cfg, map[], 0);
      && Possible(s, events, 0) && |events| == 3 && events[2].op == OpMarkFailed(a.id)
      && Is(Run(s, events[..2]).rows, a.id, Processing)
      && (Possible(Run(s, events), more, 3) ==> L.FailedOrGone(Run(Run(s, events), more).rows, a.id))
  {
    var s := Open(cfg, map[], 0);
    var two := ClaimOnly(cfg, a);
    events := Then(s, two, OpMarkFailed(a.id));
    assert events[..2] == two;
    MarksTell(Run(s, two), a.id, 3, a.id);
    if Possible(Run(s, events), more, 3) {
      ResultIsFinal(Run(s, events), more, 3, a.id);
    }
  }
}
