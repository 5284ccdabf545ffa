/**
 * Which idle worker gets a task (src/supervisor.js:395-490).
 */
module Dispatch {
  import opened Prelude
  import opened Supervisors
  import W = Workers

  /** What the searches over the idle workers look for. */
  datatype Selector = Matching(key: Key) | Unpinned | General | Fresh

  predicate Selects(workers: map<Id, Worker>, id: Id, sel: Selector)
    requires id in workers
  {
    var w := workers[id];
    match sel
    case Matching(key) => w.affinity == Some(key) || w.name == Some(key)
    case Unpinned => !w.dedicated && w.affinity.None?
    case General => !w.dedicated
    case Fresh => w.handle.completed == 0
  }

  ghost predicate AllIn(ids: seq<Id>, workers: map<Id, Worker>) {
    forall id :: id in ids ==> id in workers
  }

  /** `filter`. */
  function Filter(workers: map<Id, Worker>, ids: seq<Id>, sel: Selector): (r: seq<Id>)
    requires AllIn(ids, workers)
    ensures forall id :: id in r <==> id in ids && Selects(workers, id, sel)
  {
    if ids == [] then []
    else
      var init, last := ids[..|ids| - 1], ids[|ids| - 1];
      assert ids == init + [last];
      Filter(workers, init, sel) + (if Selects(workers, last, sel) then [last] else [])
  }

  /** The idle workers, in pool order. */
  function Idle(workers: map<Id, Worker>, pool: seq<Id>): (r: seq<Id>)
    requires AllIn(pool, workers)
    ensures forall id :: id in r <==> id in pool && workers[id].handle.status == W.Idle
  {
    if pool == [] then []
    else
      var init, last := pool[..|pool| - 1], pool[|pool| - 1];
      assert pool == init + [last];
      Idle(workers, init) + (if workers[last].handle.status == W.Idle then [last] else [])
  }

  /** `find`: the index of the first selected id, or the length. */
  function Find(workers: map<Id, Worker>, ids: seq<Id>, sel: Selector, from: nat): (k: nat)
    requires AllIn(ids, workers) && from <= |ids|
    ensures from <= k <= |ids|
    ensures forall i :: from <= i < k ==> !Selects(workers, ids[i], sel)
    ensures k < |ids| ==> Selects(workers, ids[k], sel)
    decreases |ids| - from
  {
    if from == |ids| || Selects(workers, ids[from], sel) then from else Find(workers, ids, sel, from + 1)
  }

  /** `findIndex` by id. */
  function IndexOf(ids: seq<Id>, id: Id, from: nat): (k: nat)
    requires from <= |ids|
    ensures from <= k <= |ids|
    ensures forall i :: from <= i < k ==> ids[i] != id
    ensures k < |ids| ==> ids[k] == id
    decreases |ids| - from
  {
    if from == |ids| || ids[from] == id then from else IndexOf(ids, id, from + 1)
  }

  // ---- The strategies ----

  /** The one after the last dispatched, in list order; the first when that one is unknown. */
  function PickLru(candidates: seq<Id>, last: Option<Id>): Id
    requires candidates != []
  {
    if last.None? then candidates[0]
    else
      var k := IndexOf(candidates, last.value, 0);
      if k == |candidates| then candidates[0] else candidates[(k + 1) % |candidates|]
  }

  /** `roll` is the random index, drawn below the number of candidates. */
  function PickByStrategy(s: State, candidates: seq<Id>, roll: nat): Id
    requires candidates != [] && AllIn(candidates, s.workers)
  {
    var k := Find(s.workers, candidates, Fresh, 0);
    if k < |candidates| then candidates[k]
    else
      match s.cfg.strategy
      case Fifo => candidates[0]
      case Random => candidates[roll % |candidates|]
      case Lru => PickLru(candidates, s.lastDispatched)
  }

  function Candidates(s: State): seq<Id>
    requires Known(s)
  {
    Filter(s.workers, Idle(s.workers, s.pool), General)
  }

  /** A worker already pinned to the key, else an unpinned one: the strategy has no say. */
  function ByAffinity(s: State, key: Key): Option<Id>
    requires Known(s)
  {
    var idle := Idle(s.workers, s.pool);
    var i, j := Find(s.workers, idle, Matching(key), 0), Find(s.workers, idle, Unpinned, 0);
    if i < |idle| then Some(idle[i]) else if j < |idle| then Some(idle[j]) else None
  }

  /** `findWorkerForTask` for a task with that affinity key, if any. */
  function FindWorker(s: State, key: Option<Key>, roll: nat): Option<Id>
    requires Known(s)
  {
    var pinned := if key.Some? then ByAffinity(s, key.value) else None;
    if pinned.Some? then pinned
    else if Candidates(s) == [] then None
    else Some(PickByStrategy(s, Candidates(s), roll))
  }

  /** Only a pick by strategy moves the cursor of the cycle. */
  function AfterFind(s: State, key: Option<Key>, roll: nat): State
    requires Known(s)
  {
    if (key.Some? && ByAffinity(s, key.value).Some?) || Candidates(s) == [] then s
    else s.(lastDispatched := Some(PickByStrategy(s, Candidates(s), roll)))
  }

  // ---- Who is eligible ----

  lemma MemberIndex(ids: seq<Id>, id: Id) returns (i: nat)
    requires id in ids
    ensures i < |ids| && ids[i] == id
  {
    i :| 0 <= i < |ids| && ids[i] == id;
  }

  lemma PickedIsCandidate(s: State, candidates: seq<Id>, roll: nat)
    requires candidates != [] && AllIn(candidates, s.workers)
    ensures PickByStrategy(s, candidates, roll) in candidates
  {
  }

  /** A dedicated worker is returned only to a task that names it, by affinity key or by name. */
  lemma DedicatedOnlyOnMatch(s: State, key: Option<Key>, roll: nat)
    requires Known(s) && FindWorker(s, key, roll).Some?
    ensures var id := FindWorker(s, key, roll).value;
      && id in s.pool && s.workers[id].handle.status == W.Idle
      && (s.workers[id].dedicated ==> key.Some? && (s.workers[id].affinity == key || s.workers[id].name == key))
  {
    if key.None? || ByAffinity(s, key.value).None? {
      PickedIsCandidate(s, Candidates(s), roll);
    }
  }

  /** A task goes without a worker exactly when no idle worker is general and none is named by it. */
  lemma NoWorkerIff(s: State, key: Option<Key>, roll: nat)
    requires Known(s)
    ensures FindWorker(s, key, roll).None? <==>
      forall id :: id in s.pool && s.workers[id].handle.status == W.Idle ==>
        s.workers[id].dedicated && (key.Some? ==> s.workers[id].affinity != key && s.workers[id].name != key)
  {
    var idle, c := Idle(s.workers, s.pool), Candidates(s);
    if FindWorker(s, key, roll).None? {
      forall id | id in s.pool && s.workers[id].handle.status == W.Idle
        ensures s.workers[id].dedicated && (key.Some? ==> s.workers[id].affinity != key && s.workers[id].name != key)
      {
        assert id in idle && id !in c;
        var i := MemberIndex(idle, id);
      }
    } else {
      DedicatedOnlyOnMatch(s, key, roll);
    }
  }

  /** Under every strategy a worker that has completed nothing goes first, the earliest of them. */
  lemma FreshFirst(s: State, roll: nat)
    requires Known(s) && exists id :: id in Candidates(s) && s.workers[id].handle.completed == 0
    ensures var r := FindWorker(s, None, roll); var c := Candidates(s);
      && r.Some? && s.workers[r.value].handle.completed == 0
      && exists k :: 0 <= k < |c| && c[k] == r.value && forall i :: 0 <= i < k ==> s.workers[c[i]].handle.completed > 0
  {
    var c := Candidates(s);
    var id :| id in c && s.workers[id].handle.completed == 0;
    var i := MemberIndex(c, id);
    var k := Find(s.workers, c, Fresh, 0);
    assert k <= i;
  }

  /** With an affinity key the freshest worker is preferred only when no idle worker is unpinned or named. */
  lemma AffinityOverridesFresh(s: State, key: Key, roll: nat)
    requires Known(s) && ByAffinity(s, key).Some?
    ensures FindWorker(s, Some(key), roll) == ByAffinity(s, key) && AfterFind(s, Some(key), roll) == s
    ensures var id := ByAffinity(s, key).value;
      || Selects(s.workers, id, Matching(key))
      || (Selects(s.workers, id, Unpinned)
          && forall x :: x in s.pool && s.workers[x].handle.status == W.Idle ==> !Selects(s.workers, x, Matching(key)))
  {
    var idle := Idle(s.workers, s.pool);
    var i := Find(s.workers, idle, Matching(key), 0);
    if i == |idle| {
      forall x | x in s.pool && s.workers[x].handle.status == W.Idle ensures !Selects(s.workers, x, Matching(key)) {
        var k := MemberIndex(idle, x);
      }
    }
  }

  /** The first of `ids` that the search selects. */
  ghost predicate FirstOf(workers: map<Id, Worker>, ids: seq<Id>, sel: Selector, id: Id)
    requires AllIn(ids, workers)
  {
    exists k :: 0 <= k < |ids| && ids[k] == id && Selects(workers, id, sel)
                && forall i :: 0 <= i < k ==> !Selects(workers, ids[i], sel)
  }

  ghost predicate NoneOf(workers: map<Id, Worker>, ids: seq<Id>, sel: Selector)
    requires AllIn(ids, workers)
  {
    forall id :: id in ids ==> !Selects(workers, id, sel)
  }

  /** `find` returns the first selected id, and there is only one such. */
  lemma FindIs(workers: map<Id, Worker>, ids: seq<Id>, sel: Selector)
    requires AllIn(ids, workers)
    ensures var k := Find(workers, ids, sel, 0);
      if k < |ids| then forall id :: FirstOf(workers, ids, sel, id) <==> id == ids[k] else NoneOf(workers, ids, sel)
  {
    var k := Find(workers, ids, sel, 0);
    if k == |ids| {
      forall id | id in ids ensures !Selects(workers, id, sel) {
        var i := MemberIndex(ids, id);
      }
    }
  }

  /**
   * Exactly when the first fresh worker is the answer: the task has no key, or
   * that worker is the first one idle that the key names, or the key names
   * none and it is the first one idle and unpinned, or there is none either.
   */
  lemma FreshFirstIff(s: State, key: Option<Key>, roll: nat, first: Id)
    requires Known(s) && FirstOf(s.workers, Candidates(s), Fresh, first)
    ensures var idle := Idle(s.workers, s.pool);
      FindWorker(s, key, roll) == Some(first) <==>
        || key.None?
        || FirstOf(s.workers, idle, Matching(key.value), first)
        || (NoneOf(s.workers, idle, Matching(key.value))
            && (NoneOf(s.workers, idle, Unpinned) || FirstOf(s.workers, idle, Unpinned, first)))
  {
    var idle := Idle(s.workers, s.pool);
    FindIs(s.workers, Candidates(s), Fresh);
    if key.Some? {
      FindIs(s.workers, idle, Matching(key.value));
      FindIs(s.workers, idle, Unpinned);
    }
  }

  // ---- A fresh worker passed over ----

  /** Two idle workers, neither dedicated nor pinned nor named `key`: the first has been used, the second not. */
  predicate UsedAndFresh(s: State, a: Id, b: Id, key: Key) {
    && s.pool == [a, b] && a in s.workers && b in s.workers
    && s.workers[a].handle.status == W.Idle && s.workers[b].handle.status == W.Idle
    && !s.workers[a].dedicated && s.workers[a].affinity.None? && s.workers[a].name != Some(key)
    && !s.workers[b].dedicated && s.workers[b].affinity.None? && s.workers[b].name != Some(key)
    && s.workers[a].handle.completed > 0 && s.workers[b].handle.completed == 0
  }

  lemma TwoIdle(s: State, a: Id, b: Id, key: Key)
    requires UsedAndFresh(s, a, b, key)
    ensures Idle(s.workers, [a, b]) == [a, b]
  {
    assert [a, b][..1] == [a] && [a][..0] == [];
    assert Idle(s.workers, [a]) == [a];
  }

  lemma TwoGeneral(s: State, a: Id, b: Id, key: Key)
    requires UsedAndFresh(s, a, b, key)
    ensures Filter(s.workers, [a, b], General) == [a, b]
  {
    assert [a, b][..1] == [a] && [a][..0] == [];
    assert Filter(s.workers, [a], General) == [a];
  }

  lemma TwoFinds(s: State, a: Id, b: Id, key: Key)
    requires UsedAndFresh(s, a, b, key) && AllIn([a, b], s.workers)
    ensures Find(s.workers, [a, b], Fresh, 0) == 1
    ensures Find(s.workers, [a, b], Matching(key), 0) == 2
    ensures Find(s.workers, [a, b], Unpinned, 0) == 0
  {
  }

  /** With an affinity key the used first worker is picked, and without one the fresh second. */
  lemma FreshPassedOver(s: State, a: Id, b: Id, key: Key, roll: nat)
    requires Known(s) && UsedAndFresh(s, a, b, key)
    ensures FindWorker(s, Some(key), roll) == Some(a) && FindWorker(s, None, roll) == Some(b)
  {
    TwoIdle(s, a, b, key);
    TwoGeneral(s, a, b, key);
    TwoFinds(s, a, b, key);
  }

  /** A pool of two general workers that nothing was decided about yet. */
  function Pair(cfg: Config, a: W.State, b: W.State): State {
    Create(cfg).(pool := [0, 1], workers := map[0 := Worker(false, None, None, a), 1 := Worker(false, None, None, b)],
                 nextId := 2)
  }

  function Used(t: W.Task): W.State {
    W.Vacated(W.Execute(W.OnMessage(W.Init(), W.Ready), t), true).(listeners := 0)
  }

  lemma PairStart(cfg: Config)
    requires cfg.target == 2
    ensures Start(cfg) == Pair(cfg, W.Init(), W.Init())
  {
    assert SpawnMany(Create(cfg), 1) == SpawnGeneral(SpawnMany(Create(cfg), 0));
    assert SpawnMany(Create(cfg), 2) == SpawnGeneral(SpawnMany(Create(cfg), 1));
    assert [0] + [1] == [0, 1];
  }

  lemma PairReady(cfg: Config)
    ensures var ready := W.OnMessage(W.Init(), W.Ready); var init := W.Init();
      && Step(Pair(cfg, init, init), OpMessage(0, W.Ready, Seen(false, false), 0)) == Pair(cfg, ready, init)
      && Step(Pair(cfg, ready, init), OpMessage(1, W.Ready, Seen(false, false), 0)) == Pair(cfg, ready, ready)
  {
  }

  lemma PairStarts(cfg: Config, t: W.Task)
    ensures var ready := W.OnMessage(W.Init(), W.Ready);
      Step(Pair(cfg, ready, ready), OpHandle(0, W.OpExecute(t))) == Pair(cfg, W.Execute(ready, t), ready)
  {
  }

  lemma PairCompletes(cfg: Config, t: W.Task)
    requires cfg.maxTasks.None?
    ensures var ready := W.OnMessage(W.Init(), W.Ready);
      Step(Pair(cfg, W.Execute(ready, t), ready), OpMessage(0, W.Reply(t.id, true), Seen(false, false), 0))
      == Pair(cfg, Used(t), ready)
  {
  }

  /** The pool gets there: both workers become ready, and the first completes a task. */
  lemma PairReached(cfg: Config, t: W.Task, key: Key) returns (ops: seq<Op>)
    requires cfg.target == 2 && cfg.maxTasks.None?
    ensures UsedAndFresh(After(cfg, ops), 0, 1, key)
  {
    PairStart(cfg);
    PairReady(cfg);
    PairStarts(cfg, t);
    PairCompletes(cfg, t);
    ops := AfterNext(cfg, [], OpMessage(0, W.Ready, Seen(false, false), 0));
    ops := AfterNext(cfg, ops, OpMessage(1, W.Ready, Seen(false, false), 0));
    ops := AfterNext(cfg, ops, OpHandle(0, W.OpExecute(t)));
    ops := AfterNext(cfg, ops, OpMessage(0, W.Reply(t.id, true), Seen(false, false), 0));
  }

  // ---- Round robin ----

  function Succ(i: nat, n: nat): nat
    requires i < n
  {
    if i + 1 == n then 0 else i + 1
  }

  lemma SuccIsMod(i: nat, n: nat)
    requires i < n
    ensures (i + 1) % n == Succ(i, n)
  {
  }

  /** `n` elements in cyclic order, from the `i`-th on. */
  function Cycle(c: seq<Id>, i: nat, n: nat): seq<Id>
    requires i < |c|
    decreases n
  {
    if n == 0 then [] else [c[i]] + Cycle(c, Succ(i, |c|), n - 1)
  }

  lemma {:induction false} CycleStretch(c: seq<Id>, i: nat, n: nat)
    requires i < |c| && i + n <= |c|
    ensures Cycle(c, i, n) == c[i..i + n]
    decreases n
  {
    if n > 1 {
      CycleStretch(c, i + 1, n - 1);
    } else if n == 1 {
      assert Cycle(c, Succ(i, |c|), 0) == [];
    }
  }

  lemma {:induction false} CycleWraps(c: seq<Id>, i: nat, n: nat)
    requires i < |c| && i + n >= |c|
    ensures Cycle(c, i, n) == c[i..] + Cycle(c, 0, i + n - |c|)
    decreases |c| - i
  {
    if i + 1 < |c| {
      CycleWraps(c, i + 1, n - 1);
      assert c[i..] == [c[i]] + c[i + 1..];
    } else {
      assert c[i..] == [c[i]];
    }
  }

  lemma FullCycle(c: seq<Id>, i: nat)
    requires i < |c|
    ensures Cycle(c, i, |c|) == c[i..] + c[..i]
    ensures multiset(Cycle(c, i, |c|)) == multiset(c)
  {
    CycleWraps(c, i, |c|);
    CycleStretch(c, 0, i);
    assert c == c[..i] + c[i..];
  }

  /** The answers to `n` calls in a row, for tasks without a key, while no worker changes. */
  function Picks(s: State, rolls: seq<nat>): seq<Id>
    requires Known(s) && Candidates(s) != []
    decreases |rolls|
  {
    if rolls == [] then []
    else
      var t := AfterFind(s, None, rolls[0]);
      [FindWorker(s, None, rolls[0]).value] + Picks(t, rolls[1..])
  }

  ghost predicate AllUsed(s: State)
    requires Known(s)
  {
    forall id :: id in Candidates(s) ==> s.workers[id].handle.completed > 0
  }

  /** Where the cycle goes on. */
  function Cursor(c: seq<Id>, last: Option<Id>): (k: nat)
    requires c != []
    ensures k < |c| && PickLru(c, last) == c[k]
  {
    if last.None? then 0
    else
      var k := IndexOf(c, last.value, 0);
      if k == |c| then 0 else SuccIsMod(k, |c|); Succ(k, |c|)
  }

  lemma {:induction false} FilterDistinct(workers: map<Id, Worker>, ids: seq<Id>, sel: Selector)
    requires AllIn(ids, workers) && Distinct(ids)
    ensures Distinct(Filter(workers, ids, sel))
    decreases |ids|
  {
    if ids != [] {
      var init, last := ids[..|ids| - 1], ids[|ids| - 1];
      assert ids == init + [last];
      DistinctPush(init, last);
      FilterDistinct(workers, init, sel);
      DistinctPush(Filter(workers, init, sel), last);
    }
  }

  lemma {:induction false} IdleDistinct(workers: map<Id, Worker>, pool: seq<Id>)
    requires AllIn(pool, workers) && Distinct(pool)
    ensures Distinct(Idle(workers, pool))
    decreases |pool|
  {
    if pool != [] {
      var init, last := pool[..|pool| - 1], pool[|pool| - 1];
      assert pool == init + [last];
      DistinctPush(init, last);
      IdleDistinct(workers, init);
      DistinctPush(Idle(workers, init), last);
    }
  }

  lemma CandidatesDistinct(s: State)
    requires Known(s) && Distinct(s.pool)
    ensures Distinct(Candidates(s))
  {
    IdleDistinct(s.workers, s.pool);
    FilterDistinct(s.workers, Idle(s.workers, s.pool), General);
  }

  /** One pick moves the cursor one place on. */
  lemma PickMoves(s: State, roll: nat)
    requires Known(s) && s.cfg.strategy == Lru && Candidates(s) != [] && AllUsed(s)
    ensures var c := Candidates(s); var k := Cursor(c, s.lastDispatched);
      && FindWorker(s, None, roll) == Some(c[k])
      && AfterFind(s, None, roll) == s.(lastDispatched := Some(c[k]))
  {
    var c := Candidates(s);
    assert Find(s.workers, c, Fresh, 0) == |c|;
  }

  lemma {:induction false} PicksCycle(s: State, rolls: seq<nat>)
    requires Known(s) && Distinct(s.pool) && s.cfg.strategy == Lru && Candidates(s) != [] && AllUsed(s)
    ensures Picks(s, rolls) == Cycle(Candidates(s), Cursor(Candidates(s), s.lastDispatched), |rolls|)
    decreases |rolls|
  {
    if rolls != [] {
      var c := Candidates(s);
      var k := Cursor(c, s.lastDispatched);
      PickMoves(s, rolls[0]);
      var t := s.(lastDispatched := Some(c[k]));
      assert Candidates(t) == c;
      PicksCycle(t, rolls[1..]);
      CandidatesDistinct(s);
      assert IndexOf(c, c[k], 0) == k;
    }
  }

  /**
   * Round robin: while the idle, general, already used workers stay the same
   * `n`, any `n` consecutive dispatches are a permutation of them, wherever
   * the cycle stands. (Every pool reached by a run has distinct ids.)
   */
  lemma RoundRobin(s: State, rolls: seq<nat>)
    requires Known(s) && Distinct(s.pool) && s.cfg.strategy == Lru
    requires Candidates(s) != [] && AllUsed(s) && |rolls| == |Candidates(s)|
    ensures multiset(Picks(s, rolls)) == multiset(Candidates(s)) && Distinct(Candidates(s))
  {
    CandidatesDistinct(s);
    PicksCycle(s, rolls);
    FullCycle(Candidates(s), Cursor(Candidates(s), s.lastDispatched));
  }
}
