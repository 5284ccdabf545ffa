/**
 * What the calls of the in-memory queue do to the tasks (src/task-queue.js), in
 * plain terms, and that no settled task is ever let in.
 */
module QueueSteps {
  import opened Prelude
  import opened TaskQueues

  /** An enqueue of a settled task is ignored; else the task is queued if there is room and waits last if not. */
  lemma EnqueueTells(s: State, t: Task)
    ensures var u := Apply(s, OpEnqueue(t)); var e := Entry(t, |s.submitted|);
      && (t.id in s.settled ==> u == s)
      && (t.id !in s.settled ==>
            && u.submitted == s.submitted + [e] && u.settled == s.settled
            && (if |s.queue| < s.max then multiset(u.queue) == multiset(s.queue) + multiset{e} && u.waiters == s.waiters
                else u.queue == s.queue && u.waiters == s.waiters + [e]))
  {
    MembersOfInsert(s.queue, Entry(t, |s.submitted|));
  }

  lemma {:induction false} DrainAdmits(s: State, e: Entry)
    requires e in Drain(s).queue && e !in s.queue
    ensures e in s.waiters && e.task.id !in s.settled
    decreases |s.waiters|
  {
    if s.waiters != [] && |s.queue| < s.max {
      assert s.waiters == [s.waiters[0]] + s.waiters[1..];
      if s.waiters[0].task.id in s.settled {
        DrainAdmits(s.(waiters := s.waiters[1..], turnedAway := s.turnedAway + [s.waiters[0]]), e);
      } else {
        MembersOfInsert(s.queue, s.waiters[0]);
      }
    }
  }

  /** Whatever a call lets into the queue is unsettled, and was waiting or is the task enqueued. */
  lemma AdmitsUnsettled(s: State, op: Op, e: Entry)
    requires e in Apply(s, op).queue && e !in s.queue
    ensures e.task.id !in s.settled && (e in s.waiters || op == OpEnqueue(e.task))
  {
    match op
    case OpEnqueue(t) => MembersOfInsert(s.queue, Entry(t, |s.submitted|));
    case OpDequeue(w) =>
      var k := Select(s.queue, w, s.settled);
      if k < |s.queue| {
        var u := s.(queue := Without(s.queue, k), dequeued := s.dequeued + [s.queue[k]]);
        WithoutMembers(s.queue, k);
        DrainAdmits(u, e);
      }
    case _ =>
  }

  /** A timeout turns one waiter away and settles its task; the others keep their places. */
  lemma TimeoutTells(s: State, k: nat)
    requires k < |s.waiters|
    ensures var t := Apply(s, OpTimeout(k));
      && t.waiters == s.waiters[..k] + s.waiters[k + 1..] && t.turnedAway == s.turnedAway + [s.waiters[k]]
      && t.settled == s.settled + {s.waiters[k].task.id} && t.queue == s.queue
  {
  }

  /** Destroying leaves nothing queued or waiting, and everybody turned away and settled. */
  lemma DestroyTells(s: State, e: Entry)
    requires e in s.queue || e in s.waiters
    ensures var t := Apply(s, OpDestroy);
      && t.queue == [] && t.waiters == [] && t.dequeued == s.dequeued
      && e in t.turnedAway && e.task.id in t.settled
  {
  }

  /** A task of the queue that a worker with this key and kind may have. */
  predicate Fits(e: Entry, settled: set<nat>, key: Option<Key>, dedicated: bool) {
    e.task.id !in settled && (e.task.affinity.None? || !dedicated || (key.Some? && e.task.affinity == key))
  }

  ghost predicate Has(s: State, key: Option<Key>) {
    key.Some? && exists e :: e in s.queue && e.task.id !in s.settled && e.task.affinity == key
  }

  lemma FirstTells(s: State, w: Worker, key: Option<Key>)
    requires key == TargetKey(w)
    ensures First(s.queue, 0, w, s.settled, true) < |s.queue| <==> Has(s, key)
  {
    var p := First(s.queue, 0, w, s.settled, true);
    if Has(s, key) {
      var e :| e in s.queue && e.task.id !in s.settled && e.task.affinity == key;
      var i :| 0 <= i < |s.queue| && s.queue[i] == e;
      assert Pinned(s.queue[i], w, s.settled);
    }
    if p < |s.queue| {
      assert Pinned(s.queue[p], w, s.settled) && s.queue[p] in s.queue;
    }
  }

  /**
   * Affinity in plain terms. The key of a worker is its affinity key, else its
   * name. While an unsettled task has that key the worker gets one of those;
   * then a dedicated worker gets only tasks without a key, any other worker
   * every unsettled task; and it gets nothing if and only if there is none.
   */
  lemma DequeueServes(s: State, affinityKey: Option<Key>, name: Option<Key>, dedicated: bool)
    ensures var w := Worker(affinityKey, name, dedicated); var key := if affinityKey.Some? then affinityKey else name;
      var k := Select(s.queue, w, s.settled); var t := Apply(s, OpDequeue(w));
      && (k == |s.queue| ==> t == s)
      && (k < |s.queue| ==> t.dequeued == s.dequeued + [s.queue[k]] && Fits(s.queue[k], s.settled, key, dedicated))
      && (k < |s.queue| && Has(s, key) ==> s.queue[k].task.affinity == key)
      && (k == |s.queue| <==> forall e :: e in s.queue ==> !Fits(e, s.settled, key, dedicated))
  {
    var w := Worker(affinityKey, name, dedicated);
    var key := if affinityKey.Some? then affinityKey else name;
    var k := Select(s.queue, w, s.settled);
    FirstTells(s, w, key);
    SelectEligible(s.queue, w, s.settled);
    if k < |s.queue| {
      DrainDequeued(s.(queue := Without(s.queue, k), dequeued := s.dequeued + [s.queue[k]]));
      assert s.queue[k] in s.queue;
    } else {
      forall e | e in s.queue ensures !Fits(e, s.settled, key, dedicated) {
        var i :| 0 <= i < |s.queue| && s.queue[i] == e;
        assert !Eligible(s.queue, s.queue[i], w, s.settled) && !Open(s.queue[i], w, s.settled);
      }
    }
  }

  /** Without a worker the first unsettled task goes, whatever its key. */
  lemma AnyoneServed(s: State)
    ensures var k := Select(s.queue, NoWorker, s.settled);
      && (forall i :: 0 <= i < k ==> s.queue[i].task.id in s.settled)
      && (k < |s.queue| ==> s.queue[k].task.id !in s.settled
                            && Apply(s, OpDequeue(NoWorker)).dequeued == s.dequeued + [s.queue[k]])
  {
    var k := Select(s.queue, NoWorker, s.settled);
    FirstTells(s, NoWorker, None);
    SelectEligible(s.queue, NoWorker, s.settled);
    if k < |s.queue| {
      DrainDequeued(s.(queue := Without(s.queue, k), dequeued := s.dequeued + [s.queue[k]]));
    }
    forall i | 0 <= i < k ensures s.queue[i].task.id in s.settled {
      assert !Open(s.queue[i], NoWorker, s.settled);
    }
  }
}
