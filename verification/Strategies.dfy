/**
 * Which worker each dispatch strategy picks, and that a dedicated worker gets
 * the tasks it was made for (src/supervisor.js:395-490).
 */
module Strategies {
  import opened Prelude
  import opened Supervisors
  import opened Dispatch
  import W = Workers

  /** `a` stands before `b`. */
  ghost predicate Before(ids: seq<Id>, a: Id, b: Id) {
    exists i, j :: 0 <= i < j < |ids| && ids[i] == a && ids[j] == b
  }

  lemma BeforePush(ids: seq<Id>, last: Id, a: Id, b: Id)
    ensures Before(ids, a, b) ==> Before(ids + [last], a, b)
    ensures a in ids ==> Before(ids + [last], a, last)
  {
    var all := ids + [last];
    if Before(ids, a, b) {
      var i, j :| 0 <= i < j < |ids| && ids[i] == a && ids[j] == b;
      assert all[i] == a && all[j] == b;
    }
    if a in ids {
      var i :| 0 <= i < |ids| && ids[i] == a;
      assert all[i] == a && all[|ids|] == last;
    }
  }

  lemma {:induction false} IdleInOrder(workers: map<Id, Worker>, pool: seq<Id>, i: nat, j: nat)
    requires AllIn(pool, workers) && i < j < |Idle(workers, pool)|
    ensures Before(pool, Idle(workers, pool)[i], Idle(workers, pool)[j])
    decreases |pool|
  {
    var n := |pool| - 1;
    var init, r := pool[..n], Idle(workers, pool);
    assert pool == init + [pool[n]];
    if j < |Idle(workers, init)| {
      IdleInOrder(workers, init, i, j);
      BeforePush(init, pool[n], r[i], r[j]);
    } else {
      assert r[i] == Idle(workers, init)[i] && r[i] in init;
      BeforePush(init, pool[n], r[i], r[j]);
    }
  }

  lemma {:induction false} FilterInOrder(workers: map<Id, Worker>, ids: seq<Id>, sel: Selector, i: nat, j: nat)
    requires AllIn(ids, workers) && i < j < |Filter(workers, ids, sel)|
    ensures Before(ids, Filter(workers, ids, sel)[i], Filter(workers, ids, sel)[j])
    decreases |ids|
  {
    var n := |ids| - 1;
    var init, r := ids[..n], Filter(workers, ids, sel);
    assert ids == init + [ids[n]];
    if j < |Filter(workers, init, sel)| {
      FilterInOrder(workers, init, sel, i, j);
      BeforePush(init, ids[n], r[i], r[j]);
    } else {
      assert r[i] == Filter(workers, init, sel)[i] && r[i] in init;
      BeforePush(init, ids[n], r[i], r[j]);
    }
  }

  /** The candidates are the idle general workers of the pool, in the order of the pool. */
  lemma CandidatesAre(s: State, i: nat, j: nat)
    requires Ids(s) && i < j < |Candidates(s)|
    ensures forall id :: id in Candidates(s) <==>
              id in s.pool && s.workers[id].handle.status == W.Idle && !s.workers[id].dedicated
    ensures Before(s.pool, Candidates(s)[i], Candidates(s)[j])
  {
    var idle, c := Idle(s.workers, s.pool), Candidates(s);
    FilterInOrder(s.workers, idle, General, i, j);
    IdleBefore(s.workers, s.pool, c[i], c[j]);
  }

  lemma IdleBefore(workers: map<Id, Worker>, pool: seq<Id>, a: Id, b: Id)
    requires AllIn(pool, workers) && Before(Idle(workers, pool), a, b)
    ensures Before(pool, a, b)
  {
    var idle := Idle(workers, pool);
    var i, j :| 0 <= i < j < |idle| && idle[i] == a && idle[j] == b;
    IdleInOrder(workers, pool, i, j);
  }

  /** `b` stands next to `a`, or first if `a` is the last. */
  ghost predicate After(ids: seq<Id>, a: Id, b: Id) {
    exists k :: 0 <= k < |ids| && ids[k] == a && b == (if k + 1 < |ids| then ids[k + 1] else ids[0])
  }

  lemma AfterAt(ids: seq<Id>, k: nat)
    requires k < |ids|
    ensures After(ids, ids[k], if k + 1 < |ids| then ids[k + 1] else ids[0])
  {
  }

  lemma LruPicks(c: seq<Id>, last: Option<Id>)
    requires c != []
    ensures if last.Some? && last.value in c then After(c, last.value, PickLru(c, last)) else PickLru(c, last) == c[0]
  {
    if last.Some? && last.value in c {
      var k := IndexOf(c, last.value, 0);
      var i := MemberIndex(c, last.value);
      SuccIsMod(k, |c|);
      AfterAt(c, k);
    }
  }

  /**
   * Among candidates that have all been used before, `fifo` picks the first,
   * `random` the one drawn, and `lru` the one after the last dispatched, round
   * to the first; and whatever the pick, it is where `lru` goes on from.
   */
  lemma StrategyPicks(s: State, roll: nat)
    requires Known(s) && Candidates(s) != []
    requires forall id :: id in Candidates(s) ==> s.workers[id].handle.completed > 0
    ensures var c := Candidates(s); var r := FindWorker(s, None, roll);
      && r.Some? && AfterFind(s, None, roll) == s.(lastDispatched := r)
      && (s.cfg.strategy == Fifo ==> r.value == c[0])
      && (s.cfg.strategy == Random ==> r.value == c[roll % |c|])
      && (s.cfg.strategy == Lru ==>
            if s.lastDispatched.Some? && s.lastDispatched.value in c
            then After(c, s.lastDispatched.value, r.value) else r.value == c[0])
  {
    var c := Candidates(s);
    forall i | 0 <= i < |c| ensures !Selects(s.workers, c[i], Fresh) {
      assert c[i] in c;
    }
    if s.cfg.strategy == Lru {
      LruPicks(c, s.lastDispatched);
    }
  }

  /** The pool after a dedicated worker is made and says that it is ready. */
  ghost function WithDedicated(s: State, affinity: Option<Key>, name: Option<Key>): State
    requires Ids(s)
  {
    var t := Step(s, OpDedicated(affinity, name));
    if Known(t) then Step(t, OpMessage(s.nextId, W.Ready, Seen(false, false), 0)) else t
  }

  /**
   * A dedicated worker gets the tasks it was made for: with nobody else named
   * by a key, a ready one is returned for that key if and only if it is its
   * affinity or its name.
   */
  lemma DedicatedServed(s: State, affinity: Option<Key>, name: Option<Key>, key: Key, roll: nat)
    requires Ids(s)
    requires forall id :: id in s.pool ==> s.workers[id].affinity != Some(key) && s.workers[id].name != Some(key)
    ensures var t := WithDedicated(s, affinity, name);
      && Known(t)
      && (affinity == Some(key) || name == Some(key) ==> FindWorker(t, Some(key), roll) == Some(s.nextId))
      && (affinity != Some(key) && name != Some(key) ==> FindWorker(t, Some(key), roll) != Some(s.nextId))
  {
    var t := WithDedicated(s, affinity, name);
    MadeDedicated(s, affinity, name, t);
    var idle := Idle(t.workers, t.pool);
    var i := Find(t.workers, idle, Matching(key), 0);
    if affinity == Some(key) || name == Some(key) {
      assert s.nextId in idle;
      var k := MemberIndex(idle, s.nextId);
      assert idle[i] in t.pool;
    } else if FindWorker(t, Some(key), roll) == Some(s.nextId) {
      DedicatedOnlyOnMatch(t, Some(key), roll);
      assert false;
    }
  }

  lemma MadeDedicated(s: State, affinity: Option<Key>, name: Option<Key>, t: State)
    requires Ids(s) && t == WithDedicated(s, affinity, name)
    ensures t.pool == s.pool + [s.nextId] && Known(t) && s.nextId in t.workers
    ensures var w := t.workers[s.nextId];
      w.dedicated && w.affinity == affinity && w.name == name && w.handle.status == W.Idle
    ensures forall id :: id in s.pool ==> id in t.workers && t.workers[id] == s.workers[id]
  {
  }
}
