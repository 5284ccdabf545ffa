/**
 * The supervisor as the object it is (src/supervisor.js): each method is a
 * step of module Supervisors or an answer of module Dispatch.
 */
module Pool {
  import opened Prelude
  import opened Supervisors
  import opened Dispatch
  import W = Workers

  class Supervisor {
    const cfg: Config
    var pool: seq<Id>
    var workers: map<Id, Worker>
    var nextId: nat
    var lastRecycledAt: map<Id, int>
    var tasksExhaustedNotified: set<Id>
    var recycles: multiset<Id>
    var lastDispatchedWorkerId: Option<Id>
    ghost var committed: set<Id>
    ghost var ledger: Ledger

    ghost function Abs(): State
      reads this
    {
      State(cfg, pool, workers, nextId, lastRecycledAt, tasksExhaustedNotified, committed, recycles,
            lastDispatchedWorkerId, ledger)
    }

    ghost predicate Valid()
      reads this
    {
      Inv(Abs())
    }

    /** Construction and `start`: the pool is filled up to its target. */
    constructor (cfg: Config)
      ensures Abs() == Start(cfg) && Valid()
    {
      this.cfg := cfg;
      pool, workers, nextId, lastRecycledAt, tasksExhaustedNotified := [], map[], 0, map[], {};
      recycles, lastDispatchedWorkerId, committed, ledger := multiset{}, None, {}, Ledger([], 0, 0, [], []);
      new;
      for i := 0 to cfg.target
        invariant Abs() == SpawnMany(Create(cfg), i)
      {
        var id := SpawnWorker(false, None, None);
      }
      StartKept(cfg, cfg.target);
    }

    method SpawnWorker(dedicated: bool, affinity: Option<Key>, name: Option<Key>) returns (id: Id)
      modifies this
      ensures Abs() == Spawn(old(Abs()), dedicated, affinity, name) && id == old(nextId)
    {
      id := nextId;
      workers := workers[id := Worker(dedicated, affinity, name, W.Init())];
      pool := pool + [id];
      nextId := nextId + 1;
    }

    method CreateDedicatedWorker(affinity: Option<Key>, name: Option<Key>) returns (id: Id)
      requires Valid()
      modifies this
      ensures Valid() && Abs() == Step(old(Abs()), OpDedicated(affinity, name))
    {
      StepKept(Abs(), OpDedicated(affinity, name));
      id := SpawnWorker(true, affinity, name);
    }

    method SpawnIdleWorker() returns (id: Id)
      requires Valid()
      modifies this
      ensures Valid() && Abs() == Step(old(Abs()), OpGrow)
    {
      StepKept(Abs(), OpGrow);
      id := SpawnWorker(false, None, None);
      ledger := ledger.(grows := ledger.grows + 1);
    }

    method RemoveFromPool(id: Id)
      modifies `pool
      ensures pool == Supervisors.Without(old(pool), id)
    {
      var kept, i := [], 0;
      while i < |pool|
        invariant i <= |pool| && pool == old(pool)
        invariant kept == Supervisors.Without(pool[..i], id)
      {
        assert pool[..i + 1][..i] == pool[..i];
        if pool[i] != id {
          kept := kept + [pool[i]];
        }
        i := i + 1;
      }
      assert pool[..i] == pool;
      pool := kept;
    }

    /** The exit handler: forget the worker, and spawn a replacement unless it was on its way out. */
    method OnExit(id: Id) returns (replaced: bool)
      requires Valid() && id in workers && workers[id].handle.thread != W.Gone
      modifies this
      ensures Valid() && Abs() == Exit(old(Abs()), id) && replaced == Replaced(old(workers)[id])
    {
      ExitKept(Abs(), id);
      var w := workers[id];
      Forget(id);
      replaced := false;
      if !w.dedicated && (w.handle.preempted || w.handle.status == W.Preempting) {
        replaced := true;
      } else if !w.dedicated && w.handle.status != W.Terminating && w.handle.status != W.Recycling {
        replaced := true;
      }
      if replaced {
        ledger := ledger.(causes := ledger.causes + [id]);
        var replacement := SpawnWorker(false, None, None);
      }
    }

    method Forget(id: Id)
      requires id in workers
      modifies this
      ensures Abs() == Put(old(Abs()), id, W.Exit(old(workers)[id].handle)).(
        pool := Supervisors.Without(old(pool), id), lastRecycledAt := old(lastRecycledAt) - {id},
        notified := old(tasksExhaustedNotified) - {id})
    {
      workers := workers[id := workers[id].(handle := W.Exit(workers[id].handle))];
      RemoveFromPool(id);
      lastRecycledAt := lastRecycledAt - {id};
      tasksExhaustedNotified := tasksExhaustedNotified - {id};
    }

    method CheckRecycling(id: Id, seen: Seen, now: int) returns (r: Decision)
      requires id in workers
      modifies this
      ensures Abs() == Check(old(Abs()), id, seen, now) && r == Decide(old(Abs()), id, seen, now)
    {
      var w := workers[id];
      if w.dedicated {
        return Stay;
      }
      var overTasks := cfg.maxTasks.Some? && w.handle.completed >= cfg.maxTasks.value;
      if !overTasks && !seen.rate && !seen.memory {
        return Stay;
      }
      if overTasks && !cfg.recycleOnTasksExhausted {
        if id !in tasksExhaustedNotified {
          tasksExhaustedNotified := tasksExhaustedNotified + {id};
          ledger := ledger.(warned := ledger.warned + [id]);
        }
        return Warn;
      }
      if cfg.minRecycleInterval > 0 {
        if id in lastRecycledAt && now - lastRecycledAt[id] < cfg.minRecycleInterval {
          return Throttle;
        }
      }
      if w.handle.status == W.Recycling || w.handle.status == W.Terminating || w.handle.status == W.Terminated {
        return Already;
      }
      BeginRecycling(id, now);
      return Recycle;
    }

    method BeginRecycling(id: Id, now: int)
      requires id in workers
      modifies this
      ensures Abs() == Commit(old(Abs()), id, now)
    {
      workers := workers[id := workers[id].(handle := W.MarkRecycling(workers[id].handle))];
      lastRecycledAt := lastRecycledAt[id := now];
      recycles := recycles + multiset{id};
      committed := committed + {id};
      ledger := ledger.(causes := ledger.causes + [id], commits := ledger.commits + [(id, now)]);
      var replacement := SpawnWorker(false, None, None);
    }

    /** The replacement is ready and the grace period is over. */
    method FinishRecycling(id: Id)
      requires Valid() && id in recycles
      modifies this
      ensures Valid() && Abs() == Finish(old(Abs()), id)
    {
      FinishKept(Abs(), id);
      assert id in workers;
      workers := workers[id := workers[id].(handle := W.Terminate(workers[id].handle))];
      recycles := recycles - multiset{id};
    }

    /** A message of the thread, with the pool's `task_completed` and `task_failed` listeners. */
    method OnMessage(id: Id, m: W.Message, seen: Seen, now: int)
      requires Valid() && id in workers
      modifies this
      ensures Valid() && Abs() == Deliver(old(Abs()), id, m, seen, now)
    {
      DeliverKept(Abs(), id, m, seen, now);
      var h := workers[id].handle;
      if h.thread != W.Gone && !m.Ready? && !m.InitError? && h.current.Some? && h.current.value.id == m.id {
        workers := workers[id := workers[id].(handle := W.Vacated(h, m.Reply? && m.success))];
        var r := CheckRecycling(id, seen, now);
        var g := workers[id].handle;
        workers := workers[id := workers[id].(handle := W.Drained(g.(listeners := 0), h.listeners))];
      } else {
        workers := workers[id := workers[id].(handle := W.OnMessage(h, m))];
      }
    }

    /** The search of `retireLowestLoadWorker`. */
    method LowestLoad() returns (candidate: Option<Id>)
      requires Known(Abs())
      ensures candidate == Lowest(workers, pool)
    {
      candidate := None;
      var i := 0;
      while i < |pool|
        invariant i <= |pool|
        invariant candidate == Lowest(workers, pool[..i])
      {
        assert pool[..i + 1][..i] == pool[..i];
        var w := workers[pool[i]];
        if !w.dedicated && (w.handle.status == W.Starting || w.handle.status == W.Idle || w.handle.status == W.Busy)
           && (candidate.None? || w.handle.completed < workers[candidate.value].handle.completed) {
          candidate := Some(pool[i]);
        }
        i := i + 1;
      }
      assert pool[..i] == pool;
    }

    method Release(id: Id)
      requires id in workers
      modifies this
      ensures Abs() == Retire(old(Abs()), Some(id))
    {
      RemoveFromPool(id);
      workers := workers[id := workers[id].(handle := W.Retire(workers[id].handle))];
      ledger := ledger.(causes := ledger.causes + [id], retires := ledger.retires + 1);
    }

    method RetireLowestLoadWorker() returns (retired: Option<Id>)
      requires Valid()
      modifies this
      ensures retired == Lowest(old(workers), old(pool))
      ensures Valid() && Abs() == Retire(old(Abs()), retired)
    {
      retired := LowestLoad();
      RetireKept(Abs(), retired);
      if retired.Some? {
        Release(retired.value);
      }
    }

    // ---- Dispatch ----

    method IdleWorkers() returns (idle: seq<Id>)
      requires Known(Abs())
      ensures idle == Idle(workers, pool)
    {
      idle := [];
      for i := 0 to |pool|
        invariant idle == Idle(workers, pool[..i])
      {
        assert pool[..i + 1][..i] == pool[..i];
        if workers[pool[i]].handle.status == W.Idle {
          idle := idle + [pool[i]];
        }
      }
      assert pool[..|pool|] == pool;
    }

    method FindIn(ids: seq<Id>, sel: Selector) returns (k: nat)
      requires AllIn(ids, workers)
      ensures k == Find(workers, ids, sel, 0)
    {
      k := 0;
      while k < |ids| && !Selects(workers, ids[k], sel)
        invariant k <= |ids|
        invariant Find(workers, ids, sel, 0) == Find(workers, ids, sel, k)
      {
        k := k + 1;
      }
    }

    method GeneralOf(ids: seq<Id>) returns (r: seq<Id>)
      requires AllIn(ids, workers)
      ensures r == Filter(workers, ids, General)
    {
      r := [];
      for i := 0 to |ids|
        invariant r == Filter(workers, ids[..i], General)
      {
        assert ids[..i + 1][..i] == ids[..i];
        if !workers[ids[i]].dedicated {
          r := r + [ids[i]];
        }
      }
      assert ids[..|ids|] == ids;
    }

    method PickLru(candidates: seq<Id>) returns (id: Id)
      requires candidates != []
      ensures id == Dispatch.PickLru(candidates, lastDispatchedWorkerId)
    {
      if lastDispatchedWorkerId.None? {
        return candidates[0];
      }
      var k: nat := 0;
      while k < |candidates| && candidates[k] != lastDispatchedWorkerId.value
        invariant k <= |candidates|
        invariant IndexOf(candidates, lastDispatchedWorkerId.value, 0)
               == IndexOf(candidates, lastDispatchedWorkerId.value, k)
      {
        k := k + 1;
      }
      if k == |candidates| {
        return candidates[0];
      }
      return candidates[(k + 1) % |candidates|];
    }

    method PickByStrategy(candidates: seq<Id>, roll: nat) returns (id: Id)
      requires candidates != [] && AllIn(candidates, workers)
      modifies `lastDispatchedWorkerId
      ensures id == Dispatch.PickByStrategy(old(Abs()), candidates, roll)
      ensures Abs() == old(Abs()).(lastDispatched := Some(id))
    {
      var k := FindIn(candidates, Fresh);
      if k < |candidates| {
        id := candidates[k];
      } else {
        match cfg.strategy
        case Fifo => id := candidates[0];
        case Random => id := candidates[roll % |candidates|];
        case Lru => id := PickLru(candidates);
      }
      lastDispatchedWorkerId := Some(id);
    }

    method FindWorkerForTask(key: Option<Key>, roll: nat) returns (r: Option<Id>)
      requires Valid()
      modifies `lastDispatchedWorkerId
      ensures Valid() && r == FindWorker(old(Abs()), key, roll) && Abs() == AfterFind(old(Abs()), key, roll)
    {
      var idle := IdleWorkers();
      if key.Some? {
        var matched := FindIn(idle, Matching(key.value));
        if matched < |idle| {
          return Some(idle[matched]);
        }
        var unpinned := FindIn(idle, Unpinned);
        if unpinned < |idle| {
          return Some(idle[unpinned]);
        }
      }
      var candidates := GeneralOf(idle);
      if candidates == [] {
        return None;
      }
      var id := PickByStrategy(candidates, roll);
      CursorKept(old(Abs()), Some(id));
      return Some(id);
    }
  }

  lemma CursorKept(s: State, last: Option<Id>)
    requires Inv(s)
    ensures Inv(s.(lastDispatched := last))
  {
    forall id | id in s.workers ensures Marked(s.(lastDispatched := last), id) {
      assert Marked(s, id);
    }
  }
}
