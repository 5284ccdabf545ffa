/**
 * The pool (src/supervisor.js): spawning, recycling, retirement and the exit
 * handler, all deciding about the same workers, and the choice of a worker for
 * a task. Each worker is a handle of module Workers, moved by its own steps.
 *
 * Shutdown is not part of the model: runs are those of a started pool.
 */
module Supervisors {
  import opened Prelude
  import W = Workers

  type Id = nat
  type Key = nat

  datatype Strategy = Lru | Fifo | Random

  /** `maxTasks` None stands for no limit. */
  datatype Config = Config(
    target: nat, maxTasks: Option<nat>, minRecycleInterval: int, recycleOnTasksExhausted: bool, strategy: Strategy)

  datatype Worker = Worker(dedicated: bool, affinity: Option<Key>, name: Option<Key>, handle: W.State)

  /**
   * The record of a run: `causes` lists the decisions that a general worker
   * departs (recycled, retired, or replaced at its exit), `commits` the
   * recycle decisions with their times, `warned` the exhaustion warnings.
   */
  datatype Ledger = Ledger(causes: seq<Id>, grows: nat, retires: nat, commits: seq<(Id, int)>, warned: seq<Id>)

  /** `pool` holds the ids in map order; `recycles` the replacements that still have to terminate the old worker. */
  datatype State = State(
    cfg: Config,
    pool: seq<Id>,
    workers: map<Id, Worker>,
    nextId: nat,
    lastRecycledAt: map<Id, int>,
    notified: set<Id>,
    committed: set<Id>,
    recycles: multiset<Id>,
    lastDispatched: Option<Id>,
    ledger: Ledger)

  /** What the memory readings say at a check: growth rate over its bound, memory over its bound. */
  datatype Seen = Seen(rate: bool, memory: bool)

  datatype Op =
    | OpGrow
    | OpDedicated(affinity: Option<Key>, name: Option<Key>)
    | OpRetire
    | OpCheck(id: Id, seen: Seen, now: int)
    | OpMessage(id: Id, message: W.Message, seen: Seen, now: int)
    | OpHandle(id: Id, step: W.Op)
    | OpFinish(id: Id)
    | OpExit(id: Id)

  // ---- The pool ----

  function Spawn(s: State, dedicated: bool, affinity: Option<Key>, name: Option<Key>): State {
    s.(pool := s.pool + [s.nextId],
       workers := s.workers[s.nextId := Worker(dedicated, affinity, name, W.Init())],
       nextId := s.nextId + 1)
  }

  function SpawnGeneral(s: State): State { Spawn(s, false, None, None) }

  function Put(s: State, id: Id, h: W.State): State
    requires id in s.workers
  {
    s.(workers := s.workers[id := s.workers[id].(handle := h)])
  }

  function Without(pool: seq<Id>, id: Id): seq<Id> {
    if pool == [] then []
    else Without(pool[..|pool| - 1], id) + (if pool[|pool| - 1] == id then [] else [pool[|pool| - 1]])
  }

  function Create(cfg: Config): State {
    State(cfg, [], map[], 0, map[], {}, {}, multiset{}, None, Ledger([], 0, 0, [], []))
  }

  function SpawnMany(s: State, n: nat): State {
    if n == 0 then s else SpawnGeneral(SpawnMany(s, n - 1))
  }

  function Start(cfg: Config): State { SpawnMany(Create(cfg), cfg.target) }

  function Caused(s: State, id: Id): State {
    s.(ledger := s.ledger.(causes := s.ledger.causes + [id]))
  }

  // ---- Recycling ----

  datatype Decision = Stay | Warn | Throttle | Already | Recycle

  predicate Exhausted(s: State, id: Id)
    requires id in s.workers
  {
    s.cfg.maxTasks.Some? && s.workers[id].handle.completed >= s.cfg.maxTasks.value
  }

  predicate Throttled(s: State, id: Id, now: int) {
    s.cfg.minRecycleInterval > 0 && id in s.lastRecycledAt && now - s.lastRecycledAt[id] < s.cfg.minRecycleInterval
  }

  function Decide(s: State, id: Id, seen: Seen, now: int): Decision
    requires id in s.workers
  {
    if s.workers[id].dedicated then Stay
    else if !Exhausted(s, id) && !seen.rate && !seen.memory then Stay
    else if Exhausted(s, id) && !s.cfg.recycleOnTasksExhausted then Warn
    else if Throttled(s, id, now) then Throttle
    else if W.Leaving(s.workers[id].handle.status) then Already
    else Recycle
  }

  /** The worker is marked and a replacement spawned; the old one stays in the pool for now. */
  function Commit(s: State, id: Id, now: int): State
    requires id in s.workers
  {
    var u := Put(s, id, W.MarkRecycling(s.workers[id].handle));
    SpawnGeneral(u.(lastRecycledAt := s.lastRecycledAt[id := now],
                    committed := s.committed + {id},
                    recycles := s.recycles + multiset{id},
                    ledger := s.ledger.(causes := s.ledger.causes + [id], commits := s.ledger.commits + [(id, now)])))
  }

  function Check(s: State, id: Id, seen: Seen, now: int): State
    requires id in s.workers
  {
    match Decide(s, id, seen, now)
    case Recycle => Commit(s, id, now)
    case Warn =>
      if id in s.notified then s
      else s.(notified := s.notified + {id}, ledger := s.ledger.(warned := s.ledger.warned + [id]))
    case _ => s
  }

  /** The message settles the worker's task. */
  predicate Settles(h: W.State, m: W.Message) {
    h.thread != W.Gone && !m.Ready? && !m.InitError? && h.current.Some? && h.current.value.id == m.id
  }

  /** When a task settles, the pool's listener runs before those of a retirement. */
  function Deliver(s: State, id: Id, m: W.Message, seen: Seen, now: int): State
    requires id in s.workers
  {
    var h := s.workers[id].handle;
    if Settles(h, m) then
      var u := Check(Put(s, id, W.Vacated(h, m.Reply? && m.success)), id, seen, now);
      Put(u, id, W.Drained(u.workers[id].handle.(listeners := 0), h.listeners))
    else Put(s, id, W.OnMessage(h, m))
  }

  /** The replacement is ready: the old worker is terminated. */
  function Finish(s: State, id: Id): State {
    if id !in s.recycles || id !in s.workers then s
    else Put(s, id, W.Terminate(s.workers[id].handle)).(recycles := s.recycles - multiset{id})
  }

  // ---- Exit ----

  /** The exit handler spawns a replacement: for a preempted worker, or one that was not on its way out. */
  predicate Replaced(w: Worker) {
    !w.dedicated && (w.handle.preempted || (w.handle.status != W.Terminating && w.handle.status != W.Recycling))
  }

  function Exit(s: State, id: Id): State
    requires id in s.workers
  {
    var w := s.workers[id];
    if w.handle.thread == W.Gone then s
    else
      var u := Put(s, id, W.Exit(w.handle)).(
        pool := Without(s.pool, id), lastRecycledAt := s.lastRecycledAt - {id}, notified := s.notified - {id});
      if Replaced(w) then SpawnGeneral(Caused(u, id)) else u
  }

  // ---- Retirement ----

  predicate Retirable(w: Worker) {
    !w.dedicated
    && (w.handle.status == W.Starting || w.handle.status == W.Idle || w.handle.status == W.Busy)
  }

  /** The first retirable worker with the fewest completed tasks. */
  function Lowest(workers: map<Id, Worker>, pool: seq<Id>): (r: Option<Id>)
    requires forall id :: id in pool ==> id in workers
    ensures r.Some? ==> r.value in pool && Retirable(workers[r.value])
  {
    if pool == [] then None
    else
      var r, id := Lowest(workers, pool[..|pool| - 1]), pool[|pool| - 1];
      if Retirable(workers[id]) && (r.None? || workers[id].handle.completed < workers[r.value].handle.completed)
      then Some(id) else r
  }

  function Retire(s: State, choice: Option<Id>): State
    requires choice.Some? ==> choice.value in s.workers
  {
    if choice.None? then s
    else
      var id := choice.value;
      var u := Put(s, id, W.Retire(s.workers[id].handle));
      u.(pool := Without(s.pool, id),
         ledger := s.ledger.(causes := s.ledger.causes + [id], retires := s.ledger.retires + 1))
  }

  /** Nobody is retired exactly when nobody can be; otherwise the first of those with the fewest completed tasks. */
  lemma {:induction false} LowestIs(workers: map<Id, Worker>, pool: seq<Id>)
    requires forall id :: id in pool ==> id in workers
    ensures var r := Lowest(workers, pool);
      && (r.None? <==> forall id :: id in pool ==> !Retirable(workers[id]))
      && (r.Some? ==> exists k :: 0 <= k < |pool| && pool[k] == r.value && FirstLowest(workers, pool, k))
  {
    if pool != [] {
      var n := |pool| - 1;
      var init := pool[..n];
      LowestIs(workers, init);
      var r := Lowest(workers, pool);
      assert forall id :: id in pool <==> id in init || id == pool[n];
      if r.Some? {
        if r == Lowest(workers, init) {
          var k :| 0 <= k < |init| && init[k] == r.value && FirstLowest(workers, init, k);
          assert pool[k] == r.value && FirstLowest(workers, pool, k);
        } else {
          LastLowest(workers, init, Lowest(workers, init), pool);
        }
      }
    }
  }

  /** No retirable worker has fewer completions, and none before it as few. */
  ghost predicate FirstLowest(workers: map<Id, Worker>, pool: seq<Id>, k: nat)
    requires (forall id :: id in pool ==> id in workers) && k < |pool|
  {
    forall i :: 0 <= i < |pool| && Retirable(workers[pool[i]]) ==>
      var a, b := workers[pool[k]].handle.completed, workers[pool[i]].handle.completed;
      if i < k then a < b else a <= b
  }

  lemma LastLowest(workers: map<Id, Worker>, init: seq<Id>, r: Option<Id>, pool: seq<Id>)
    requires pool != [] && init == pool[..|pool| - 1] && forall id :: id in pool ==> id in workers
    requires r.None? ==> forall id :: id in init ==> !Retirable(workers[id])
    requires r.Some? ==> exists k :: 0 <= k < |init| && init[k] == r.value && FirstLowest(workers, init, k)
    requires r.Some? ==> workers[pool[|pool| - 1]].handle.completed < workers[r.value].handle.completed
    ensures FirstLowest(workers, pool, |pool| - 1)
  {
    var n := |pool| - 1;
    forall i | 0 <= i < n && Retirable(workers[pool[i]])
      ensures workers[pool[n]].handle.completed < workers[pool[i]].handle.completed
    {
      assert init[i] == pool[i] && init[i] in init;
      var k :| 0 <= k < |init| && init[k] == r.value && FirstLowest(workers, init, k);
    }
  }

  // ---- Runs ----

  /** The steps of a handle that the pool has no part in. */
  predicate Outside(op: W.Op) {
    op.OpExecute? || op.OpStream? || op.OpTerminated? || op.OpWatchdog? || op.OpGrace? || op.OpPreempt? || op.OpSettle?
  }

  ghost predicate Known(s: State) {
    forall id :: id in s.pool ==> id in s.workers
  }

  function Step(s: State, op: Op): State
    requires Known(s)
  {
    match op
    case OpGrow => SpawnGeneral(s).(ledger := s.ledger.(grows := s.ledger.grows + 1))
    case OpDedicated(affinity, name) => Spawn(s, true, affinity, name)
    case OpRetire => Retire(s, Lowest(s.workers, s.pool))
    case OpCheck(id, seen, now) => if id in s.pool then Check(s, id, seen, now) else s
    case OpMessage(id, m, seen, now) => if id in s.workers then Deliver(s, id, m, seen, now) else s
    case OpHandle(id, h) =>
      if id in s.workers && Outside(h) then Put(s, id, W.Step(s.workers[id].handle, h)) else s
    case OpFinish(id) => Finish(s, id)
    case OpExit(id) => if id in s.workers then Exit(s, id) else s
  }

  // ---- What every step keeps ----

  ghost predicate Distinct(ids: seq<Id>) {
    forall i, j :: 0 <= i < j < |ids| ==> ids[i] != ids[j]
  }

  ghost predicate Ids(s: State) {
    && Known(s)
    && Distinct(s.pool)
    && (forall id :: id in s.workers ==> id < s.nextId)
  }

  /** The worker is on its way out: no longer in the pool, or committed to recycling. */
  predicate Departing(s: State, id: Id) {
    id !in s.pool || id in s.committed
  }

  /** Alive, attached, and nobody has marked, retired or terminated it. */
  predicate Free(h: W.State) {
    && h.thread != W.Gone && h.link == W.Attached && h.listeners == 0
    && (h.status == W.Starting || h.status == W.Idle || h.status == W.Busy || h.status == W.Preempting)
  }

  /** A general worker has a recorded cause exactly when it is departing, and is free until then. */
  predicate Marked(s: State, id: Id)
    requires id in s.workers
  {
    if s.workers[id].dedicated then id !in s.ledger.causes && id !in s.committed
    else (id in s.ledger.causes <==> Departing(s, id)) && (id !in s.ledger.causes ==> Free(s.workers[id].handle))
  }

  ghost predicate Marks(s: State) {
    && (forall id :: id in s.workers ==> Marked(s, id))
    && (forall id :: id in s.ledger.causes || id in s.committed || id in s.recycles ==> id in s.workers)
    && (forall id :: id in s.recycles ==> id in s.committed)
  }

  /** The general workers ever spawned. */
  function General(workers: map<Id, Worker>): set<Id> {
    set id | id in workers && !workers[id].dedicated
  }

  /** `owed` replacements are still to be spawned for the causes recorded. */
  ghost predicate Balanced(s: State, owed: int) {
    |General(s.workers)| + s.ledger.retires + owed == s.cfg.target + s.ledger.grows + |s.ledger.causes|
  }

  ghost predicate Core(s: State, owed: int) {
    Ids(s) && Marks(s) && Balanced(s, owed)
  }

  ghost predicate Inv(s: State) {
    Core(s, 0)
  }

  lemma {:induction false} WithoutIs(pool: seq<Id>, id: Id)
    ensures forall x :: x in Without(pool, id) <==> x in pool && x != id
    ensures Distinct(pool) ==> Distinct(Without(pool, id))
  {
    if pool != [] {
      var init, last := pool[..|pool| - 1], pool[|pool| - 1];
      assert pool == init + [last];
      WithoutIs(init, id);
      forall x | x in pool ensures x in init || x == last {
      }
      if Distinct(pool) {
        assert last !in init;
      }
    }
  }

  lemma SpawnMarks(s: State, dedicated: bool, affinity: Option<Key>, name: Option<Key>)
    requires Ids(s) && Marks(s)
    ensures Marks(Spawn(s, dedicated, affinity, name))
  {
    var t, n := Spawn(s, dedicated, affinity, name), s.nextId;
    assert n !in s.workers;
    assert n !in s.ledger.causes && n !in s.committed;
    assert n in t.pool;
    forall id | id in t.workers ensures Marked(t, id) {
      if id != n {
        assert Marked(s, id) && (id in t.pool <==> id in s.pool);
      }
    }
  }

  lemma SpawnKept(s: State, dedicated: bool, affinity: Option<Key>, name: Option<Key>, owed: int)
    requires Core(s, owed)
    ensures Core(Spawn(s, dedicated, affinity, name), if dedicated then owed else owed - 1)
  {
    var t := Spawn(s, dedicated, affinity, name);
    SpawnMarks(s, dedicated, affinity, name);
    SpawnGrows(s.workers, s.nextId, t.workers[s.nextId]);
    assert s.nextId !in s.pool;
  }

  lemma SpawnGrows(workers: map<Id, Worker>, id: Id, w: Worker)
    requires id !in workers
    ensures General(workers[id := w]) == General(workers) + (if w.dedicated then {} else {id})
    ensures |General(workers[id := w])| == |General(workers)| + (if w.dedicated then 0 else 1)
  {
  }

  /** Only the handle of `id` changes, and it stays free if it has to be. */
  lemma PutKept(s: State, id: Id, h: W.State, owed: int)
    requires Core(s, owed) && id in s.workers
    requires !s.workers[id].dedicated && Free(s.workers[id].handle) ==> id in s.ledger.causes || Free(h)
    ensures Core(Put(s, id, h), owed)
  {
    var t := Put(s, id, h);
    assert General(t.workers) == General(s.workers);
    assert Marked(s, id);
    forall x | x in t.workers ensures Marked(t, x) {
      assert Marked(s, x);
    }
  }

  /** A cause is recorded for `id`, which now departs. */
  lemma CauseMarks(s: State, t: State, id: Id)
    requires Ids(s) && Marks(s) && id in s.workers && !s.workers[id].dedicated
    requires t.workers.Keys == s.workers.Keys && !t.workers[id].dedicated
    requires forall x :: x in s.workers && x != id ==> t.workers[x] == s.workers[x]
    requires forall x :: x != id ==> (x in t.pool <==> x in s.pool) && (x in t.committed <==> x in s.committed)
    requires t.ledger.causes == s.ledger.causes + [id] && Departing(t, id)
    requires forall x :: x in t.recycles ==> x in t.committed
    ensures Marks(t)
  {
    forall x | x in t.workers ensures Marked(t, x) {
      assert Marked(s, x);
    }
    forall x | x in t.committed ensures x in t.workers {
      assert x == id || x in s.committed;
    }
  }

  lemma CommitKept(s: State, id: Id, now: int)
    requires Inv(s) && id in s.workers && !s.workers[id].dedicated
    ensures Inv(Commit(s, id, now))
  {
    var h := W.MarkRecycling(s.workers[id].handle);
    var t := Put(s, id, h).(
      lastRecycledAt := s.lastRecycledAt[id := now],
      committed := s.committed + {id}, recycles := s.recycles + multiset{id},
      ledger := s.ledger.(causes := s.ledger.causes + [id], commits := s.ledger.commits + [(id, now)]));
    assert General(t.workers) == General(s.workers);
    CauseMarks(s, t, id);
    assert Core(t, 1);
    SpawnKept(t, false, None, None, 1);
  }

  lemma CheckKept(s: State, id: Id, seen: Seen, now: int)
    requires Inv(s) && id in s.workers
    ensures Inv(Check(s, id, seen, now))
  {
    match Decide(s, id, seen, now)
    case Recycle => CommitKept(s, id, now);
    case Warn =>
      var t := Check(s, id, seen, now);
      forall x | x in t.workers ensures Marked(t, x) {
        assert Marked(s, x);
      }
    case _ =>
  }

  lemma FreeSettled(h: W.State, success: bool)
    requires Free(h) && h.current.Some?
    ensures Free(W.Vacated(h, success))
  {
  }

  lemma FreeMessage(h: W.State, m: W.Message)
    requires Free(h) && !Settles(h, m)
    ensures Free(W.OnMessage(h, m))
  {
  }

  /** With no retirement waiting, the listeners change nothing; otherwise the worker was retired. */
  lemma DrainedFree(h: W.State, n: nat)
    requires Free(h) && n == 0
    ensures Free(W.Drained(h.(listeners := 0), n))
  {
  }

  lemma CheckThread(s: State, id: Id, seen: Seen, now: int)
    requires Ids(s) && id in s.workers
    ensures var t := Check(s, id, seen, now);
      && id in t.workers && t.workers[id].handle.listeners == s.workers[id].handle.listeners
      && t.workers[id].handle.thread == s.workers[id].handle.thread
  {
  }

  lemma DrainedKept(s: State, id: Id, n: nat)
    requires Inv(s) && id in s.workers && n == s.workers[id].handle.listeners
    ensures Inv(Put(s, id, W.Drained(s.workers[id].handle.(listeners := 0), n)))
  {
    var g := s.workers[id].handle;
    assert Marked(s, id);
    if !s.workers[id].dedicated && id !in s.ledger.causes {
      DrainedFree(g, n);
    }
    PutKept(s, id, W.Drained(g.(listeners := 0), n), 0);
  }

  lemma DeliverKept(s: State, id: Id, m: W.Message, seen: Seen, now: int)
    requires Inv(s) && id in s.workers
    ensures Inv(Deliver(s, id, m, seen, now))
  {
    var h := s.workers[id].handle;
    if Settles(h, m) {
      var ok := m.Reply? && m.success;
      if Free(h) {
        FreeSettled(h, ok);
      }
      PutKept(s, id, W.Vacated(h, ok), 0);
      var u := Put(s, id, W.Vacated(h, ok));
      CheckKept(u, id, seen, now);
      CheckThread(u, id, seen, now);
      DrainedKept(Check(u, id, seen, now), id, h.listeners);
    } else {
      if Free(h) {
        FreeMessage(h, m);
      }
      PutKept(s, id, W.OnMessage(h, m), 0);
    }
  }

  lemma FinishKept(s: State, id: Id)
    requires Inv(s)
    ensures Inv(Finish(s, id))
  {
    if id in s.recycles && id in s.workers {
      assert Marked(s, id);
      var u := Put(s, id, W.Terminate(s.workers[id].handle));
      PutKept(s, id, W.Terminate(s.workers[id].handle), 0);
      var t := Finish(s, id);
      forall x | x in t.workers ensures Marked(t, x) {
        assert Marked(u, x);
      }
    }
  }

  lemma RetireKept(s: State, choice: Option<Id>)
    requires Inv(s)
    requires choice.Some? ==> choice.value in s.pool && !s.workers[choice.value].dedicated
    ensures Inv(Retire(s, choice))
  {
    if choice.Some? {
      var id := choice.value;
      var t := Retire(s, choice);
      WithoutIs(s.pool, id);
      assert General(t.workers) == General(s.workers);
      CauseMarks(s, t, id);
    }
  }

  /** The pool entry of a worker that is gone is dropped. */
  lemma DropMarks(s: State, t: State, id: Id)
    requires Ids(s) && Marks(s) && id in s.workers
    requires s.workers[id].dedicated || Departing(s, id)
    requires t.workers.Keys == s.workers.Keys && t.workers[id].dedicated == s.workers[id].dedicated
    requires forall x :: x in s.workers && x != id ==> t.workers[x] == s.workers[x]
    requires forall x :: x != id ==> (x in t.pool <==> x in s.pool)
    requires id !in t.pool && t.committed == s.committed && t.ledger == s.ledger && t.recycles == s.recycles
    ensures Marks(t)
  {
    forall x | x in t.workers ensures Marked(t, x) {
      assert Marked(s, x);
    }
  }

  lemma ExitKept(s: State, id: Id)
    requires Inv(s) && id in s.workers
    ensures Inv(Exit(s, id))
  {
    var w := s.workers[id];
    if w.handle.thread != W.Gone {
      var u := Put(s, id, W.Exit(w.handle)).(
        pool := Without(s.pool, id), lastRecycledAt := s.lastRecycledAt - {id}, notified := s.notified - {id});
      WithoutIs(s.pool, id);
      assert General(u.workers) == General(s.workers);
      assert Marked(s, id);
      if Replaced(w) {
        CauseMarks(s, Caused(u, id), id);
        assert Core(Caused(u, id), 1);
        SpawnKept(Caused(u, id), false, None, None, 1);
      } else {
        DropMarks(s, u, id);
      }
    }
  }

  lemma HandleKept(s: State, id: Id, op: W.Op)
    requires Inv(s) && id in s.workers && Outside(op)
    ensures Inv(Put(s, id, W.Step(s.workers[id].handle, op)))
  {
    PutKept(s, id, W.Step(s.workers[id].handle, op), 0);
  }

  /** The steps of the pool itself. */
  lemma PoolStepKept(s: State, op: Op)
    requires Inv(s) && (op.OpGrow? || op.OpDedicated? || op.OpRetire? || op.OpCheck?)
    ensures Inv(Step(s, op))
  {
    match op
    case OpGrow => SpawnKept(s, false, None, None, 0);
    case OpDedicated(affinity, name) => SpawnKept(s, true, affinity, name, 0);
    case OpRetire => RetireKept(s, Lowest(s.workers, s.pool));
    case OpCheck(id, seen, now) =>
      if id in s.pool { CheckKept(s, id, seen, now); }
  }

  /** The steps of one worker. */
  lemma WorkerStepKept(s: State, op: Op, t: State)
    requires Inv(s) && t == Step(s, op) && (op.OpMessage? || op.OpHandle? || op.OpFinish? || op.OpExit?)
    ensures Inv(t)
  {
    if op.OpFinish? {
      FinishKept(s, op.id);
    } else if op.id in s.workers {
      match op
      case OpMessage(id, m, seen, now) => DeliverKept(s, id, m, seen, now);
      case OpHandle(id, h) =>
        if Outside(h) { HandleKept(s, id, h); }
      case OpExit(id) => ExitKept(s, id);
    }
  }

  lemma StepKept(s: State, op: Op)
    requires Inv(s)
    ensures Inv(Step(s, op))
  {
    if op.OpGrow? || op.OpDedicated? || op.OpRetire? || op.OpCheck? {
      PoolStepKept(s, op);
    } else {
      WorkerStepKept(s, op, Step(s, op));
    }
  }

  lemma {:induction false} StartKept(cfg: Config, n: nat)
    ensures var s := SpawnMany(Create(cfg), n);
      Core(s, cfg.target - n) && s.cfg == cfg && s.ledger == Ledger([], 0, 0, [], [])
  {
    if n == 0 {
      assert General(map[]) == {};
    } else {
      StartKept(cfg, n - 1);
      SpawnKept(SpawnMany(Create(cfg), n - 1), false, None, None, cfg.target - n + 1);
    }
  }

  function Run(s: State, ops: seq<Op>): (t: State)
    requires Inv(s)
    ensures Inv(t)
    decreases |ops|
  {
    if ops == [] then s
    else
      StepKept(s, ops[0]);
      Run(Step(s, ops[0]), ops[1..])
  }

  lemma StepConfig(s: State, op: Op)
    requires Known(s)
    ensures Step(s, op).cfg == s.cfg
  {
  }

  lemma {:induction false} RunConfig(s: State, ops: seq<Op>)
    requires Inv(s)
    ensures Run(s, ops).cfg == s.cfg
    decreases |ops|
  {
    if ops != [] {
      StepKept(s, ops[0]);
      StepConfig(s, ops[0]);
      RunConfig(Step(s, ops[0]), ops[1..]);
    }
  }

  /** The pool after `ops`, from its start. */
  function After(cfg: Config, ops: seq<Op>): State {
    StartKept(cfg, cfg.target);
    Run(Start(cfg), ops)
  }

  lemma {:induction false} RunPush(s: State, ops: seq<Op>, op: Op)
    requires Inv(s)
    ensures Run(s, ops + [op]) == Step(Run(s, ops), op)
    decreases |ops|
  {
    if ops == [] {
      assert [op][1..] == [];
    } else {
      assert (ops + [op])[1..] == ops[1..] + [op];
      StepKept(s, ops[0]);
      RunPush(Step(s, ops[0]), ops[1..], op);
    }
  }

  /** The run grows by one step. */
  lemma AfterNext(cfg: Config, ops: seq<Op>, op: Op) returns (longer: seq<Op>)
    ensures After(cfg, longer) == Step(After(cfg, ops), op)
  {
    longer := ops + [op];
    StartKept(cfg, cfg.target);
    RunPush(Start(cfg), ops, op);
  }

  // ---- Pool capacity ----

  /** The general workers that count: in the pool and not committed to recycling. */
  function Counted(s: State): set<Id> {
    set id | id in s.workers && !s.workers[id].dedicated && !Departing(s, id)
  }

  function Elements(ids: seq<Id>): set<Id> {
    set id | id in ids
  }

  /** How many recorded causes hit a worker that already had one. */
  function Surplus(causes: seq<Id>): int {
    |causes| - |Elements(causes)|
  }

  lemma SurplusPush(causes: seq<Id>, id: Id)
    ensures Surplus(causes + [id]) == Surplus(causes) + (if id in causes then 1 else 0)
  {
    assert Elements(causes + [id]) == Elements(causes) + {id};
    if id in causes {
      assert Elements(causes) + {id} == Elements(causes);
    }
  }

  lemma DistinctPush(ids: seq<Id>, id: Id)
    ensures Distinct(ids + [id]) <==> Distinct(ids) && id !in ids
  {
    var longer := ids + [id];
    if Distinct(longer) {
      forall i, j | 0 <= i < j < |ids| ensures ids[i] != ids[j] {
        assert longer[i] != longer[j];
      }
      forall i | 0 <= i < |ids| ensures ids[i] != id {
        assert longer[i] != longer[|ids|];
      }
    }
  }

  lemma {:induction false} SurplusIs(causes: seq<Id>)
    ensures Surplus(causes) >= 0
    ensures Surplus(causes) == 0 <==> Distinct(causes)
  {
    if causes == [] {
      assert Elements(causes) == {};
    } else {
      var init, last := causes[..|causes| - 1], causes[|causes| - 1];
      assert causes == init + [last];
      SurplusIs(init);
      SurplusPush(init, last);
      DistinctPush(init, last);
    }
  }

  lemma CountedIs(s: State)
    requires Inv(s)
    ensures |Counted(s)| == s.cfg.target + s.ledger.grows - s.ledger.retires + Surplus(s.ledger.causes)
    ensures forall id :: id in Counted(s) ==> Free(s.workers[id].handle) && id !in s.ledger.causes
  {
    forall id | id in s.workers
      ensures id in Counted(s) <==> id in General(s.workers) && id !in s.ledger.causes
      ensures id in Counted(s) ==> Free(s.workers[id].handle)
    {
      assert Marked(s, id);
    }
    forall id | id in s.ledger.causes ensures id in General(s.workers) {
      assert id in s.workers && Marked(s, id);
    }
    assert Counted(s) + Elements(s.ledger.causes) == General(s.workers);
    assert Counted(s) !! Elements(s.ledger.causes);
  }

  /**
   * Capacity never drops, in any interleaving of crashes, preemptions,
   * recycling and retirement: the workers that count are alive, and number the
   * target plus the grows less the retires, plus one for every cause beyond
   * the first that hit one worker. So there are never too few, and exactly
   * that many when every worker departs for one cause.
   */
  lemma Capacity(cfg: Config, ops: seq<Op>)
    ensures var s := After(cfg, ops); var l := s.ledger;
      && (forall id :: id in Counted(s) ==> Free(s.workers[id].handle))
      && |Counted(s)| == cfg.target + l.grows - l.retires + Surplus(l.causes)
      && |Counted(s)| >= cfg.target + l.grows - l.retires
      && (|Counted(s)| == cfg.target + l.grows - l.retires <==> Distinct(l.causes))
  {
    StartKept(cfg, cfg.target);
    RunConfig(Start(cfg), ops);
    CountedIs(After(cfg, ops));
    SurplusIs(After(cfg, ops).ledger.causes);
  }

  /** A departing worker is replaced again at its exit exactly when it was preempted or lost its departing status. */
  lemma SecondReplacementIff(s: State, id: Id)
    requires Inv(s) && id in s.ledger.causes && s.workers[id].handle.thread != W.Gone
    ensures var h := s.workers[id].handle;
      |Counted(Exit(s, id))| == |Counted(s)| + 1
      <==> h.preempted || (h.status != W.Recycling && h.status != W.Terminating)
    ensures |Counted(s)| <= |Counted(Exit(s, id))| <= |Counted(s)| + 1
  {
    assert Marked(s, id);
    ExitKept(s, id);
    CountedIs(s);
    CountedIs(Exit(s, id));
    SurplusPush(s.ledger.causes, id);
  }

  lemma CommitCounts(s: State, id: Id, now: int)
    requires Inv(s) && id in Counted(s)
    ensures var t := Commit(s, id, now);
      && Inv(t) && |Counted(t)| == |Counted(s)| && id in t.ledger.causes
      && t.workers[id].handle == W.MarkRecycling(s.workers[id].handle)
  {
    CommitKept(s, id, now);
    CountedIs(s);
    CountedIs(Commit(s, id, now));
    SurplusPush(s.ledger.causes, id);
  }

  lemma PreemptCounts(s: State, id: Id)
    requires Inv(s) && id in s.ledger.causes
    ensures var h := s.workers[id].handle; var t := Put(s, id, W.Preempt(h));
      && Inv(t) && |Counted(t)| == |Counted(s)| && t.ledger == s.ledger
      && t.workers[id].handle.thread == h.thread
      && (h.current.Some? && h.status == W.Recycling ==> t.workers[id].handle.preempted)
  {
    PutKept(s, id, W.Preempt(s.workers[id].handle), 0);
    CountedIs(s);
    CountedIs(Put(s, id, W.Preempt(s.workers[id].handle)));
  }

  /** Recycled while its task runs, then preempted: the worker is replaced twice and the pool is one too large. */
  lemma RecycledThenPreempted(s: State, id: Id, now: int)
    requires Inv(s) && id in Counted(s) && s.workers[id].handle.current.Some?
    ensures var recycled := Commit(s, id, now);
      var preempted := Put(recycled, id, W.Preempt(recycled.workers[id].handle));
      |Counted(Exit(preempted, id))| == |Counted(s)| + 1
  {
    CommitCounts(s, id, now);
    CountedIs(s);
    PreemptCounts(Commit(s, id, now), id);
    var recycled := Commit(s, id, now);
    SecondReplacementIff(Put(recycled, id, W.Preempt(recycled.workers[id].handle)), id);
  }

  // ---- Recycling a worker that still runs a task ----

  /** Only the poll recycles a worker with a task in its slot: the listener of a settling task finds it empty. */
  lemma RecycledBusyIff(s: State, op: Op)
    requires Inv(s) && |Step(s, op).ledger.commits| > |s.ledger.commits|
    ensures var t := Step(s, op); var x := t.ledger.commits[|s.ledger.commits|].0;
      && t.ledger.commits == s.ledger.commits + [(x, op.now)] && x in s.workers && x in t.workers
      && (t.workers[x].handle.current.Some? <==> op.OpCheck? && s.workers[x].handle.current.Some?)
      && (op.OpCheck? ==> t.workers[x].handle.current == s.workers[x].handle.current)
  {
    if op.OpMessage? {
      DeliverCommits(s, op.id, op.message, op.seen, op.now);
    }
  }

  lemma DeliverCommits(s: State, id: Id, m: W.Message, seen: Seen, now: int)
    requires Ids(s) && id in s.workers && |Deliver(s, id, m, seen, now).ledger.commits| > |s.ledger.commits|
    ensures var t := Deliver(s, id, m, seen, now);
      && t.ledger.commits == s.ledger.commits + [(id, now)] && id in t.workers
      && t.workers[id].handle.current.None?
  {
    var h := s.workers[id].handle;
    var u := Put(s, id, W.Vacated(h, m.Reply? && m.success));
    W.DrainedSame(Check(u, id, seen, now).workers[id].handle.(listeners := 0), h.listeners);
  }

  /** The step is about this worker. */
  predicate Names(op: Op, id: Id) {
    match op
    case OpCheck(x, _, _) => x == id
    case OpMessage(x, _, _, _) => x == id
    case OpHandle(x, _) => x == id
    case OpFinish(x) => x == id
    case OpExit(x) => x == id
    case _ => false
  }

  predicate Untouched(s: State, t: State, id: Id) {
    id in s.workers && id in t.workers && t.workers[id] == s.workers[id] && t.recycles[id] == s.recycles[id]
  }

  lemma UnnamedCheck(s: State, x: Id, seen: Seen, now: int, id: Id)
    requires Ids(s) && x in s.workers && id in s.workers && x != id
    ensures Untouched(s, Check(s, x, seen, now), id)
  {
  }

  lemma UnnamedDeliver(s: State, x: Id, m: W.Message, seen: Seen, now: int, id: Id)
    requires Ids(s) && x in s.workers && id in s.workers && x != id
    ensures Untouched(s, Deliver(s, x, m, seen, now), id)
  {
    if Settles(s.workers[x].handle, m) {
      UnnamedCheck(Put(s, x, W.Vacated(s.workers[x].handle, m.Reply? && m.success)), x, seen, now, id);
    }
  }

  lemma UnnamedExit(s: State, x: Id, id: Id)
    requires Ids(s) && x in s.workers && id in s.workers && x != id
    ensures Untouched(s, Exit(s, x), id)
  {
  }

  lemma UnnamedRetire(s: State, id: Id)
    requires Ids(s) && id in s.workers && !Retirable(s.workers[id])
    ensures Untouched(s, Retire(s, Lowest(s.workers, s.pool)), id)
  {
  }

  lemma UnnamedStep(s: State, op: Op, id: Id, t: State)
    requires Ids(s) && id in s.workers && !Retirable(s.workers[id]) && !Names(op, id) && t == Step(s, op)
    ensures Untouched(s, t, id)
  {
    match op
    case OpRetire => UnnamedRetire(s, id);
    case OpCheck(x, seen, now) => if x in s.pool { UnnamedCheck(s, x, seen, now, id); }
    case OpMessage(x, m, seen, now) => if x in s.workers { UnnamedDeliver(s, x, m, seen, now, id); }
    case OpExit(x) => if x in s.workers { UnnamedExit(s, x, id); }
    case _ =>
  }

  lemma {:induction false} UnnamedRun(s: State, ops: seq<Op>, id: Id)
    requires Inv(s) && id in s.workers && !Retirable(s.workers[id]) && forall op :: op in ops ==> !Names(op, id)
    ensures Untouched(s, Run(s, ops), id)
    decreases |ops|
  {
    if ops != [] {
      assert ops[0] in ops;
      StepKept(s, ops[0]);
      UnnamedStep(s, ops[0], id, Step(s, ops[0]));
      UnnamedRun(Step(s, ops[0]), ops[1..], id);
    }
  }

  /**
   * A recycling does not wait for the task that runs: if the worker neither
   * answers nor is killed before its replacement is ready, whatever else the
   * pool does meanwhile, its termination crashes a task if and only if one was
   * in the slot at the decision.
   */
  lemma RecycleCrashIff(s: State, id: Id, seen: Seen, now: int, meanwhile: seq<Op>)
    requires Inv(s) && id in s.pool && Decide(s, id, seen, now) == Recycle && s.workers[id].handle.thread != W.Gone
    requires forall op :: op in meanwhile ==> !Names(op, id)
    ensures Inv(Step(s, OpCheck(id, seen, now)))
    ensures var v := Run(Step(s, OpCheck(id, seen, now)), meanwhile);
      && id in v.workers && id in Exit(Finish(v, id), id).workers
      && var h, g := s.workers[id].handle, Exit(Finish(v, id), id).workers[id].handle;
      && g.thread == W.Gone
      && (h.current.None? ==> g.log.departed == h.log.departed)
      && (h.current.Some? ==> g.log.departed == h.log.departed + [W.Departure(h.current.value, W.Crashed)])
  {
    var u := Step(s, OpCheck(id, seen, now));
    StepKept(s, OpCheck(id, seen, now));
    Recycled(s, id, seen, now);
    UnnamedRun(u, meanwhile, id);
    FinishThenExit(Run(u, meanwhile), id);
    EndOfRecycled(s.workers[id].handle);
  }

  lemma Recycled(s: State, id: Id, seen: Seen, now: int)
    requires Ids(s) && id in s.workers && Decide(s, id, seen, now) == Recycle
    ensures var u := Check(s, id, seen, now);
      id in u.workers && id in u.recycles && u.workers[id].handle == s.workers[id].handle.(status := W.Recycling)
  {
  }

  lemma FinishThenExit(s: State, id: Id)
    requires Ids(s) && id in s.workers && id in s.recycles && s.workers[id].handle.thread != W.Gone
    ensures var t := Exit(Finish(s, id), id);
      id in t.workers && t.workers[id].handle == W.Exit(W.Terminate(s.workers[id].handle))
  {
    ExitHandle(Finish(s, id), id);
  }

  lemma ExitHandle(s: State, id: Id)
    requires Ids(s) && id in s.workers && s.workers[id].handle.thread != W.Gone
    ensures id in Exit(s, id).workers && Exit(s, id).workers[id].handle == W.Exit(s.workers[id].handle)
  {
  }

  lemma EndOfRecycled(h: W.State)
    requires h.thread != W.Gone
    ensures var g := W.Exit(W.Terminate(h.(status := W.Recycling)));
      && g.thread == W.Gone
      && g.log.departed == h.log.departed
                           + (if h.current.Some? then [W.Departure(h.current.value, W.Crashed)] else [])
  {
  }

  /** A pool gets there: a worker is spawned, becomes ready and takes a task, and its memory is over the bound. */
  lemma BusyRecycleReached(cfg: Config, task: W.Task, now: int) returns (ops: seq<Op>, id: Id)
    requires cfg.maxTasks.Some? ==> cfg.maxTasks.value > 0
    ensures var s := After(cfg, ops);
      && id in s.pool && id in s.workers && Decide(s, id, Seen(false, true), now) == Recycle
      && s.workers[id].handle.current == Some(task) && s.workers[id].handle.thread != W.Gone
  {
    StartKept(cfg, cfg.target);
    FreshStart(cfg, cfg.target);
    id := Start(cfg).nextId;
    ops := AfterNext(cfg, [], OpGrow);
    var grown := After(cfg, ops);
    GrownWorker(Start(cfg), grown);
    ops := AfterNext(cfg, ops, OpMessage(id, W.Ready, Seen(false, false), 0));
    var ready := After(cfg, ops);
    ReadyWorker(grown, id, ready);
    ops := AfterNext(cfg, ops, OpHandle(id, W.OpExecute(task)));
    RipeWorker(ready, id, task, now, After(cfg, ops));
  }

  lemma {:induction false} FreshStart(cfg: Config, n: nat)
    ensures SpawnMany(Create(cfg), n).cfg == cfg && SpawnMany(Create(cfg), n).lastRecycledAt == map[]
  {
    if n > 0 {
      FreshStart(cfg, n - 1);
    }
  }

  /** A general worker of the pool, never recycled, with this handle. */
  predicate Has(s: State, id: Id, h: W.State) {
    && id in s.pool && id in s.workers && !s.workers[id].dedicated
    && s.workers[id].handle == h && s.lastRecycledAt == map[]
  }

  lemma GrownWorker(s: State, grown: State)
    requires Ids(s) && s.lastRecycledAt == map[] && grown == Step(s, OpGrow)
    ensures Has(grown, s.nextId, W.Init()) && grown.cfg == s.cfg
  {
  }

  lemma ReadyWorker(s: State, id: Id, ready: State)
    requires Ids(s) && Has(s, id, W.Init()) && ready == Step(s, OpMessage(id, W.Ready, Seen(false, false), 0))
    ensures Has(ready, id, W.OnMessage(W.Init(), W.Ready)) && ready.cfg == s.cfg
  {
  }

  lemma RipeWorker(s: State, id: Id, task: W.Task, now: int, t: State)
    requires Ids(s) && Has(s, id, W.OnMessage(W.Init(), W.Ready))
    requires s.cfg.maxTasks.Some? ==> s.cfg.maxTasks.value > 0
    requires t == Step(s, OpHandle(id, W.OpExecute(task)))
    ensures id in t.pool && id in t.workers && Decide(t, id, Seen(false, true), now) == Recycle
    ensures t.workers[id].handle.current == Some(task) && t.workers[id].handle.thread != W.Gone
  {
  }

  lemma RetireCounts(s: State, id: Id)
    requires Inv(s) && id in Counted(s)
    ensures var t := Retire(s, Some(id));
      && Inv(t) && |Counted(t)| == |Counted(s)| - 1 && id in t.ledger.causes
      && t.workers[id].handle == W.Retire(s.workers[id].handle)
  {
    RetireKept(s, Some(id));
    CountedIs(s);
    CountedIs(Retire(s, Some(id)));
    SurplusPush(s.ledger.causes, id);
  }

  /** Retired while its task runs, then crashed: the retirement is undone by a replacement. */
  lemma RetiredThenCrashed(s: State, id: Id)
    requires Inv(s) && id in Counted(s) && s.workers[id].handle.status == W.Busy
    ensures var retired := Retire(s, Some(id));
      |Counted(retired)| == |Counted(s)| - 1 && |Counted(Exit(retired, id))| == |Counted(s)|
  {
    RetireCounts(s, id);
    CountedIs(s);
    SecondReplacementIff(Retire(s, Some(id)), id);
  }

  // ---- Recycling: spaced, warned about once, masked by the opt-out ----

  /** The pool holds live workers, and the warnings are remembered while the worker lives. */
  predicate Sound(s: State, id: Id)
    requires id in s.workers
  {
    var h := s.workers[id].handle;
    && (id in s.pool ==> h.thread != W.Gone)
    && (id in s.ledger.warned && h.thread != W.Gone ==> id in s.notified)
  }

  /** So are the recyclings, the last one of all. */
  predicate Dated(s: State, id: Id, at: int) {
    && id in s.workers
    && (s.workers[id].handle.thread != W.Gone ==>
          id in s.lastRecycledAt && (s.cfg.minRecycleInterval > 0 ==> at <= s.lastRecycledAt[id]))
  }

  ghost predicate Spaced(commits: seq<(Id, int)>, interval: int) {
    forall i, j :: 0 <= i < j < |commits| && commits[i].0 == commits[j].0 ==> commits[j].1 - commits[i].1 >= interval
  }

  ghost predicate Records(s: State) {
    && (forall id :: id in s.workers ==> Sound(s, id))
    && (forall c :: c in s.ledger.commits ==> Dated(s, c.0, c.1))
    && (s.cfg.minRecycleInterval > 0 ==> Spaced(s.ledger.commits, s.cfg.minRecycleInterval))
    && Distinct(s.ledger.warned)
    && (forall id :: id in s.ledger.warned ==> id in s.workers)
  }

  /** From `s` to `t` the worker stays what it was, or is gone. */
  predicate Carried(s: State, t: State, id: Id)
    requires id in t.workers
  {
    && (id in t.pool ==> t.workers[id].handle.thread != W.Gone)
    && (id in s.workers && t.workers[id].handle.thread != W.Gone ==>
          && s.workers[id].handle.thread != W.Gone
          && (id in s.notified ==> id in t.notified)
          && (id in s.lastRecycledAt ==> id in t.lastRecycledAt && t.lastRecycledAt[id] == s.lastRecycledAt[id]))
  }

  lemma CarryRecords(s: State, t: State)
    requires Records(s) && s.cfg == t.cfg
    requires s.ledger.commits == t.ledger.commits && s.ledger.warned == t.ledger.warned
    requires forall id :: id in s.workers ==> id in t.workers
    requires forall id :: id in t.workers ==> Carried(s, t, id)
    ensures Records(t)
  {
    forall id | id in t.workers ensures Sound(t, id) {
      assert Carried(s, t, id);
      if id in t.ledger.warned {
        assert id in s.workers && Sound(s, id);
      }
    }
    forall c | c in t.ledger.commits ensures Dated(t, c.0, c.1) {
      assert Dated(s, c.0, c.1);
      assert Carried(s, t, c.0);
    }
  }

  lemma SpawnRecords(s: State, dedicated: bool, affinity: Option<Key>, name: Option<Key>)
    requires Ids(s) && Records(s)
    ensures Records(Spawn(s, dedicated, affinity, name))
  {
    var t := Spawn(s, dedicated, affinity, name);
    assert s.nextId !in s.workers;
    forall id | id in t.workers ensures Carried(s, t, id) {
      if id != s.nextId {
        assert Sound(s, id);
      }
    }
    CarryRecords(s, t);
  }

  /** A handle step other than the exit. */
  lemma PutRecords(s: State, id: Id, h: W.State)
    requires Records(s) && id in s.workers && (h.thread == W.Gone <==> s.workers[id].handle.thread == W.Gone)
    ensures Records(Put(s, id, h))
  {
    forall x | x in s.workers ensures Carried(s, Put(s, id, h), x) {
      assert Sound(s, x);
    }
    CarryRecords(s, Put(s, id, h));
  }

  lemma CommitSpaced(s: State, id: Id, now: int)
    requires Records(s) && id in s.workers && s.workers[id].handle.thread != W.Gone && !Throttled(s, id, now)
    ensures s.cfg.minRecycleInterval > 0 ==> Spaced(s.ledger.commits + [(id, now)], s.cfg.minRecycleInterval)
  {
    var longer := s.ledger.commits + [(id, now)];
    if s.cfg.minRecycleInterval > 0 {
      forall i, j | 0 <= i < j < |longer| && longer[i].0 == longer[j].0
        ensures longer[j].1 - longer[i].1 >= s.cfg.minRecycleInterval
      {
        if j == |s.ledger.commits| {
          assert longer[i] in s.ledger.commits;
          assert Dated(s, longer[i].0, longer[i].1);
        }
      }
    }
  }

  lemma CommitRecords(s: State, id: Id, now: int)
    requires Ids(s) && Records(s) && id in s.workers
    requires s.workers[id].handle.thread != W.Gone && !Throttled(s, id, now)
    ensures Records(Commit(s, id, now))
  {
    CommitSpaced(s, id, now);
    var t := Put(s, id, W.MarkRecycling(s.workers[id].handle)).(
      lastRecycledAt := s.lastRecycledAt[id := now], committed := s.committed + {id},
      recycles := s.recycles + multiset{id},
      ledger := s.ledger.(causes := s.ledger.causes + [id], commits := s.ledger.commits + [(id, now)]));
    forall x | x in t.workers ensures Sound(t, x) {
      assert Sound(s, x);
    }
    forall c | c in t.ledger.commits ensures Dated(t, c.0, c.1) {
      assert c == (id, now) || Dated(s, c.0, c.1);
    }
    SpawnRecords(t, false, None, None);
  }

  lemma WarnRecords(s: State, id: Id)
    requires Records(s) && id in s.workers && s.workers[id].handle.thread != W.Gone && id !in s.notified
    ensures Records(s.(notified := s.notified + {id}, ledger := s.ledger.(warned := s.ledger.warned + [id])))
  {
    var t := s.(notified := s.notified + {id}, ledger := s.ledger.(warned := s.ledger.warned + [id]));
    assert Sound(s, id);
    forall x | x in t.workers ensures Sound(t, x) {
      assert Sound(s, x);
    }
    forall c | c in t.ledger.commits ensures Dated(t, c.0, c.1) {
      assert Dated(s, c.0, c.1);
    }
  }

  lemma CheckRecords(s: State, id: Id, seen: Seen, now: int)
    requires Ids(s) && Records(s) && id in s.workers && s.workers[id].handle.thread != W.Gone
    ensures Records(Check(s, id, seen, now))
  {
    match Decide(s, id, seen, now)
    case Recycle => CommitRecords(s, id, now);
    case Warn =>
      if id !in s.notified { WarnRecords(s, id); }
    case _ =>
  }

  lemma DeliverRecords(s: State, id: Id, m: W.Message, seen: Seen, now: int)
    requires Ids(s) && Records(s) && id in s.workers
    ensures Records(Deliver(s, id, m, seen, now))
  {
    var h := s.workers[id].handle;
    if Settles(h, m) {
      var mid := W.Vacated(h, m.Reply? && m.success);
      PutRecords(s, id, mid);
      var u := Put(s, id, mid);
      CheckRecords(u, id, seen, now);
      var v := Check(u, id, seen, now);
      W.DrainedThread(v.workers[id].handle.(listeners := 0), h.listeners);
      PutRecords(v, id, W.Drained(v.workers[id].handle.(listeners := 0), h.listeners));
    } else {
      PutRecords(s, id, W.OnMessage(h, m));
    }
  }

  lemma RetireRecords(s: State, id: Id)
    requires Records(s) && id in s.workers
    ensures Records(Retire(s, Some(id)))
  {
    var t := Retire(s, Some(id));
    WithoutIs(s.pool, id);
    forall x | x in t.workers ensures Carried(s, t, x) {
      assert Sound(s, x);
    }
    CarryRecords(s, t);
  }

  /** The exit forgets the records of the worker, whose handle never acts again. */
  lemma ExitRecords(s: State, id: Id)
    requires Ids(s) && Records(s) && id in s.workers
    ensures Records(Exit(s, id))
  {
    var w := s.workers[id];
    if w.handle.thread != W.Gone {
      var u := Put(s, id, W.Exit(w.handle)).(
        pool := Without(s.pool, id), lastRecycledAt := s.lastRecycledAt - {id}, notified := s.notified - {id});
      var v := if Replaced(w) then Caused(u, id) else u;
      WithoutIs(s.pool, id);
      forall x | x in v.workers ensures Carried(s, v, x) {
        assert Sound(s, x);
      }
      CarryRecords(s, v);
      if Replaced(w) {
        SpawnRecords(v, false, None, None);
      }
    }
  }

  lemma StepRecords(s: State, op: Op)
    requires Ids(s) && Records(s)
    ensures Records(Step(s, op))
  {
    match op
    case OpDedicated(affinity, name) => SpawnRecords(s, true, affinity, name);
    case OpRetire =>
      var r := Lowest(s.workers, s.pool);
      if r.Some? { RetireRecords(s, r.value); }
    case OpCheck(id, seen, now) =>
      if id in s.pool {
        assert Sound(s, id);
        CheckRecords(s, id, seen, now);
      }
    case OpMessage(id, m, seen, now) =>
      if id in s.workers { DeliverRecords(s, id, m, seen, now); }
    case OpHandle(id, h) =>
      if id in s.workers && Outside(h) {
        PutRecords(s, id, W.Step(s.workers[id].handle, h));
      }
    case OpExit(id) =>
      if id in s.workers { ExitRecords(s, id); }
    case _ =>
  }

  lemma {:induction false} RunRecords(s: State, ops: seq<Op>)
    requires Inv(s) && Records(s)
    ensures Records(Run(s, ops))
    decreases |ops|
  {
    if ops != [] {
      StepKept(s, ops[0]);
      StepRecords(s, ops[0]);
      RunRecords(Step(s, ops[0]), ops[1..]);
    }
  }

  lemma {:induction false} StartRecords(cfg: Config, n: nat)
    ensures Records(SpawnMany(Create(cfg), n))
  {
    if n > 0 {
      StartRecords(cfg, n - 1);
      StartKept(cfg, n - 1);
      SpawnRecords(SpawnMany(Create(cfg), n - 1), false, None, None);
    }
  }

  /**
   * Whatever the readings and the clock say, two recyclings of one worker are
   * at least the configured interval apart, and the warning comes at most once
   * per worker.
   */
  lemma RecyclesSpaced(cfg: Config, ops: seq<Op>)
    ensures var s := After(cfg, ops);
      && (cfg.minRecycleInterval > 0 ==> Spaced(s.ledger.commits, cfg.minRecycleInterval))
      && Distinct(s.ledger.warned)
  {
    StartKept(cfg, cfg.target);
    StartRecords(cfg, cfg.target);
    RunRecords(Start(cfg), ops);
    RunConfig(Start(cfg), ops);
  }

  /**
   * With the opt-out the task limit comes first and masks the memory signals:
   * a worker over both is recycled exactly when the opt-out is not set.
   */
  lemma OptOutMasksIff(s: State, id: Id, seen: Seen, now: int)
    requires id in s.workers && !s.workers[id].dedicated && (seen.rate || seen.memory)
    requires !Throttled(s, id, now) && !W.Leaving(s.workers[id].handle.status)
    ensures Decide(s, id, seen, now) == Recycle <==> s.cfg.recycleOnTasksExhausted || !Exhausted(s, id)
  {
  }

  lemma CompletedGrows(h: W.State, op: W.Op)
    ensures W.Step(h, op).completed >= h.completed
  {
    if op.OpMessage? && Settles(h, op.message) {
      var mid := W.Vacated(h, op.message.Reply? && op.message.success);
      W.DrainedThread(mid.(listeners := 0), h.listeners);
    }
  }

  /** From `s` to `t` no recycling of `x` is recorded. */
  ghost predicate NotRecycled(s: State, t: State, x: Id) {
    && s.ledger.commits <= t.ledger.commits
    && (forall k :: |s.ledger.commits| <= k < |t.ledger.commits| ==> t.ledger.commits[k].0 != x)
    && (x in t.committed <==> x in s.committed)
  }

  lemma CheckMasked(s: State, id: Id, x: Id, seen: Seen, now: int)
    requires Ids(s) && id in s.workers && x in s.workers && !s.cfg.recycleOnTasksExhausted
    ensures var t := Check(s, id, seen, now);
      && x in t.workers && t.workers[x].handle.completed == s.workers[x].handle.completed
      && t.cfg == s.cfg && (Exhausted(s, x) ==> NotRecycled(s, t, x))
  {
  }

  lemma DeliverMasked(s: State, id: Id, x: Id, m: W.Message, seen: Seen, now: int)
    requires Ids(s) && id in s.workers && x in s.workers && !s.cfg.recycleOnTasksExhausted && Exhausted(s, x)
    ensures var t := Deliver(s, id, m, seen, now); x in t.workers && Exhausted(t, x) && NotRecycled(s, t, x)
  {
    var h := s.workers[id].handle;
    CompletedGrows(h, W.OpMessage(m));
    if Settles(h, m) {
      var u := Put(s, id, W.Vacated(h, m.Reply? && m.success));
      CheckMasked(u, id, x, seen, now);
      CheckMasked(u, id, id, seen, now);
      W.DrainedThread(Check(u, id, seen, now).workers[id].handle.(listeners := 0), h.listeners);
    }
  }

  lemma PutMasked(s: State, id: Id, h: W.State, x: Id)
    requires id in s.workers && x in s.workers && Exhausted(s, x) && h.completed >= s.workers[id].handle.completed
    ensures Exhausted(Put(s, id, h), x) && NotRecycled(s, Put(s, id, h), x)
  {
  }

  lemma StepMasked(s: State, op: Op, x: Id)
    requires Ids(s) && x in s.workers && !s.cfg.recycleOnTasksExhausted && Exhausted(s, x)
    ensures var t := Step(s, op); x in t.workers && Exhausted(t, x) && NotRecycled(s, t, x)
  {
    match op
    case OpCheck(id, seen, now) =>
      if id in s.pool { CheckMasked(s, id, x, seen, now); }
    case OpMessage(id, m, seen, now) =>
      if id in s.workers { DeliverMasked(s, id, x, m, seen, now); }
    case OpHandle(id, h) =>
      if id in s.workers {
        CompletedGrows(s.workers[id].handle, h);
        PutMasked(s, id, W.Step(s.workers[id].handle, h), x);
      }
    case OpFinish(id) =>
      if id in s.workers { PutMasked(s, id, W.Terminate(s.workers[id].handle), x); }
    case _ =>
  }

  /** So a worker past its limit is never recycled again under the opt-out, however its memory grows. */
  lemma {:induction false} MaskedForGood(s: State, ops: seq<Op>, id: Id)
    requires Inv(s) && id in s.workers && !s.cfg.recycleOnTasksExhausted && Exhausted(s, id)
    ensures NotRecycled(s, Run(s, ops), id)
    decreases |ops|
  {
    if ops != [] {
      var t := Step(s, ops[0]);
      StepKept(s, ops[0]);
      StepConfig(s, ops[0]);
      StepMasked(s, ops[0], id);
      MaskedForGood(t, ops[1..], id);
    }
  }

  // ---- The handles are those of module Workers ----

  /** Some run of a lone handle leads here, so all that module Workers proves of its runs holds. */
  ghost predicate Reachable(h: W.State) {
    exists ops :: h == W.After(ops)
  }

  ghost predicate Handles(s: State) {
    forall id :: id in s.workers ==> Reachable(s.workers[id].handle)
  }

  lemma ReachStep(h: W.State, op: W.Op)
    requires Reachable(h)
    ensures Reachable(W.Step(h, op))
  {
    var ops :| h == W.After(ops);
    W.RunPush(W.Init(), ops, op);
    assert W.Step(h, op) == W.After(ops + [op]);
  }

  lemma ReachInit()
    ensures Reachable(W.Init())
  {
    assert W.Init() == W.After([]);
  }

  /** A recycle decision taken while the task settles comes to the same as one taken right after. */
  lemma SettledHandle(h: W.State, m: W.Message, g: W.State)
    requires Settles(h, m)
    requires var mid := W.Vacated(h, m.Reply? && m.success); g == mid || g == W.MarkRecycling(mid)
    ensures var t := W.Drained(g.(listeners := 0), h.listeners);
      t == W.Step(h, W.OpMessage(m)) || t == W.Step(W.Step(h, W.OpMessage(m)), W.OpMarkRecycling)
  {
    var mid := W.Vacated(h, m.Reply? && m.success);
    if h.listeners > 0 {
      assert W.Terminate(mid.(listeners := 0, status := W.Terminating))
          == W.Terminate(g.(listeners := 0, status := W.Terminating));
    }
  }

  lemma SpawnHandles(s: State, dedicated: bool, affinity: Option<Key>, name: Option<Key>)
    requires Handles(s)
    ensures Handles(Spawn(s, dedicated, affinity, name))
  {
    ReachInit();
  }

  lemma CheckReach(s: State, id: Id, seen: Seen, now: int)
    requires Handles(s) && Ids(s) && id in s.workers
    ensures Handles(Check(s, id, seen, now))
  {
    ReachStep(s.workers[id].handle, W.OpMarkRecycling);
    ReachInit();
  }

  lemma DeliverHandles(s: State, id: Id, m: W.Message, seen: Seen, now: int)
    requires Handles(s) && Ids(s) && id in s.workers
    ensures Handles(Deliver(s, id, m, seen, now))
  {
    var h := s.workers[id].handle;
    ReachStep(h, W.OpMessage(m));
    if Settles(h, m) {
      var u := Put(s, id, W.Vacated(h, m.Reply? && m.success));
      SettledHandle(h, m, Check(u, id, seen, now).workers[id].handle);
      ReachStep(W.Step(h, W.OpMessage(m)), W.OpMarkRecycling);
      ReachInit();
    }
  }

  lemma ExitHandles(s: State, id: Id)
    requires Handles(s) && id in s.workers
    ensures Handles(Exit(s, id))
  {
    ReachInit();
    ReachStep(s.workers[id].handle, W.OpExit);
  }

  lemma RetireHandles(s: State, choice: Option<Id>)
    requires Handles(s) && (choice.Some? ==> choice.value in s.workers)
    ensures Handles(Retire(s, choice))
  {
    if choice.Some? {
      ReachStep(s.workers[choice.value].handle, W.OpRetire);
    }
  }

  lemma StepHandles(s: State, op: Op)
    requires Handles(s) && Ids(s)
    ensures Handles(Step(s, op))
  {
    match op
    case OpGrow => SpawnHandles(s, false, None, None);
    case OpDedicated(affinity, name) => SpawnHandles(s, true, affinity, name);
    case OpRetire => RetireHandles(s, Lowest(s.workers, s.pool));
    case OpCheck(id, seen, now) =>
      if id in s.pool { CheckReach(s, id, seen, now); }
    case OpMessage(id, m, seen, now) =>
      if id in s.workers { DeliverHandles(s, id, m, seen, now); }
    case OpHandle(id, h) =>
      if id in s.workers { ReachStep(s.workers[id].handle, h); }
    case OpFinish(id) =>
      if id in s.workers { ReachStep(s.workers[id].handle, W.OpTerminate); }
    case OpExit(id) =>
      if id in s.workers { ExitHandles(s, id); }
  }

  lemma {:induction false} RunHandles(s: State, ops: seq<Op>)
    requires Inv(s) && Handles(s)
    ensures Handles(Run(s, ops))
    decreases |ops|
  {
    if ops != [] {
      StepKept(s, ops[0]);
      StepHandles(s, ops[0]);
      RunHandles(Step(s, ops[0]), ops[1..]);
    }
  }

  lemma {:induction false} StartHandles(cfg: Config, n: nat)
    ensures Handles(SpawnMany(Create(cfg), n))
  {
    if n > 0 {
      StartHandles(cfg, n - 1);
      SpawnHandles(SpawnMany(Create(cfg), n - 1), false, None, None);
    }
  }

  /**
   * So task outcomes survive whatever the pool decides: every task any worker
   * ever started left its slot once, and none is left in a dead worker.
   */
  lemma OutcomesSurvive(cfg: Config, ops: seq<Op>, id: Id)
    requires id in After(cfg, ops).workers
    ensures var h := After(cfg, ops).workers[id].handle;
      && W.Tasks(h.log.departed) + W.Slot(h.current) == h.log.started
      && (h.thread == W.Gone ==> W.Tasks(h.log.departed) == h.log.started)
  {
    StartKept(cfg, cfg.target);
    StartHandles(cfg, cfg.target);
    RunHandles(Start(cfg), ops);
    assert Reachable(After(cfg, ops).workers[id].handle);
    var steps :| After(cfg, ops).workers[id].handle == W.After(steps);
    W.OneOutcomeEach(steps);
  }
}
