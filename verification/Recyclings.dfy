/**
 * When a check recycles a worker and what the pool does with it then
 * (src/supervisor.js), in the plain fields of the worker and the options.
 */
module Recyclings {
  import opened Prelude
  import opened Supervisors
  import W = Workers

  /** The worker has done as many tasks as the options allow. */
  predicate Spent(s: State, id: Id)
    requires id in s.workers
  {
    s.cfg.maxTasks.Some? && s.workers[id].handle.completed >= s.cfg.maxTasks.value
  }

  /** Its last recycling is at least the interval ago. */
  predicate Rested(s: State, id: Id, now: int) {
    s.cfg.minRecycleInterval > 0 && id in s.lastRecycledAt ==> now - s.lastRecycledAt[id] >= s.cfg.minRecycleInterval
  }

  predicate Going(h: W.State) {
    h.status == W.Recycling || h.status == W.Terminating || h.status == W.Terminated
  }

  /** What makes a general worker due: its task limit, unless the options say to let it be, or without it the memory. */
  predicate Due(s: State, id: Id, seen: Seen)
    requires id in s.workers
  {
    && !s.workers[id].dedicated
    && if Spent(s, id) then s.cfg.recycleOnTasksExhausted else seen.rate || seen.memory
  }

  /** The old worker marked and dated, its cause recorded, and a general worker at the end of the pool. */
  ghost predicate Committed(s: State, id: Id, now: int, t: State)
    requires id in s.workers && s.nextId !in s.workers
  {
    && id in t.workers && t.workers[id].handle.status == W.Recycling
    && t.workers[id].handle.completed == s.workers[id].handle.completed
    && t.workers[id].handle.current == s.workers[id].handle.current
    && t.lastRecycledAt == s.lastRecycledAt[id := now] && t.recycles == s.recycles + multiset{id}
    && t.pool == s.pool + [s.nextId] && s.nextId in t.workers
    && !t.workers[s.nextId].dedicated && t.workers[s.nextId].handle == W.Init()
    && t.ledger.commits == s.ledger.commits + [(id, now)] && t.ledger.causes == s.ledger.causes + [id]
    && forall x :: x in s.workers && x != id ==> x in t.workers && t.workers[x] == s.workers[x]
  }

  /**
   * A check recycles the worker if and only if it is due, rested and not
   * already going: its task limit alone is enough, and so is each memory
   * signal. Otherwise nothing is recycled, and it warns if and only if the
   * limit is reached, the options say to let it be, and it did not warn before.
   */
  lemma CheckIff(s: State, id: Id, seen: Seen, now: int)
    requires Ids(s) && id in s.workers
    ensures var t := Check(s, id, seen, now);
      && (if Due(s, id, seen) && Rested(s, id, now) && !Going(s.workers[id].handle)
          then Committed(s, id, now, t) && t.notified == s.notified
          else t.workers == s.workers && t.pool == s.pool && t.recycles == s.recycles
               && t.ledger.commits == s.ledger.commits && t.lastRecycledAt == s.lastRecycledAt)
      && (t.notified != s.notified <==>
            !s.workers[id].dedicated && Spent(s, id) && !s.cfg.recycleOnTasksExhausted && id !in s.notified)
      && (t.notified != s.notified ==> t.notified == s.notified + {id} && t.ledger.warned == s.ledger.warned + [id])
  {
  }

  /**
   * The limit recycles: the message that settles the last task allowed commits
   * the worker then and there, whatever the memory, and it ends up on its way out.
   */
  lemma LimitRecycles(s: State, id: Id, m: W.Message, seen: Seen, now: int)
    requires Ids(s) && id in s.workers && !s.workers[id].dedicated && s.cfg.recycleOnTasksExhausted
    requires var h := s.workers[id].handle;
      && h.thread != W.Gone && (m.Reply? || m.Chunk? || m.End? || m.Error?)
      && h.current.Some? && h.current.value.id == m.id && !Going(h)
      && s.cfg.maxTasks.Some? && h.completed + 1 >= s.cfg.maxTasks.value
    requires Rested(s, id, now)
    ensures var t := Deliver(s, id, m, seen, now);
      && t.ledger.commits == s.ledger.commits + [(id, now)] && t.recycles == s.recycles + multiset{id}
      && t.pool == s.pool + [s.nextId] && id in t.workers && Going(t.workers[id].handle)
  {
    var h := s.workers[id].handle;
    var u := Put(s, id, W.Vacated(h, m.Reply? && m.success));
    CheckIff(u, id, seen, now);
    var v := Check(u, id, seen, now);
    DrainedGoing(v.workers[id].handle.(listeners := 0), h.listeners);
  }

  lemma {:induction false} DrainedGoing(h: W.State, n: nat)
    requires Going(h)
    ensures Going(W.Drained(h, n))
    decreases n
  {
    if n > 0 {
      DrainedGoing(W.Terminate(h.(status := W.Terminating)), n - 1);
    }
  }

  /** A recycling ends once: its worker is terminated, one pending recycling is used up, nobody else is touched. */
  lemma FinishTells(s: State, id: Id, other: Id)
    requires id in s.workers && other in s.workers && other != id
    ensures var t := Finish(s, id);
      && (id !in s.recycles ==> t == s)
      && (id in s.recycles ==>
            && t.recycles[id] == s.recycles[id] - 1 && t.recycles[other] == s.recycles[other]
            && t.workers[id].handle.link != W.Attached && t.workers[id].handle.status != W.Recycling
            && t.workers[other] == s.workers[other] && t.pool == s.pool)
  {
  }

  /** The exit takes the worker out of the pool and forgets its date and its warning. */
  lemma ExitForgets(s: State, id: Id, other: Id)
    requires Ids(s) && id in s.workers && s.workers[id].handle.thread != W.Gone && other in s.workers && other != id
    ensures var t := Step(s, OpExit(id));
      && id !in t.pool && id !in t.lastRecycledAt && id !in t.notified && id in t.workers
      && t.workers[id].handle.thread == W.Gone && t.workers[id].handle.status == W.Terminated
      && (other in t.pool <==> other in s.pool) && other in t.workers && t.workers[other] == s.workers[other]
  {
    WithoutIs(s.pool, id);
  }

  /** A retirement takes its worker out of the pool, and no other. */
  lemma RetireTells(s: State, id: Id, other: Id)
    requires Ids(s) && id in s.workers && other in s.workers && other != id
    ensures var t := Retire(s, Some(id));
      && id !in t.pool && (other in t.pool <==> other in s.pool) && id in t.workers
      && t.workers[id].handle == W.Retire(s.workers[id].handle) && t.workers[other] == s.workers[other]
  {
    WithoutIs(s.pool, id);
  }

  /** A general worker that is starting, idle or busy. */
  predicate Hands(w: Worker) {
    !w.dedicated && (w.handle.status == W.Starting || w.handle.status == W.Idle || w.handle.status == W.Busy)
  }

  /** Nobody is retired if and only if no such worker is in the pool; else one with the fewest completed tasks. */
  lemma RetiresLeast(s: State)
    requires Ids(s)
    ensures var r := Lowest(s.workers, s.pool);
      && (r.None? <==> forall id :: id in s.pool ==> !Hands(s.workers[id]))
      && (r.Some? ==> r.value in s.pool && Hands(s.workers[r.value])
                      && forall id :: id in s.pool && Hands(s.workers[id]) ==>
                           s.workers[r.value].handle.completed <= s.workers[id].handle.completed)
  {
    LowestIs(s.workers, s.pool);
    var r := Lowest(s.workers, s.pool);
    if r.Some? {
      var k :| 0 <= k < |s.pool| && s.pool[k] == r.value && FirstLowest(s.workers, s.pool, k);
      forall id | id in s.pool && Hands(s.workers[id])
        ensures s.workers[r.value].handle.completed <= s.workers[id].handle.completed
      {
        var i :| 0 <= i < |s.pool| && s.pool[i] == id;
      }
    }
  }
}
