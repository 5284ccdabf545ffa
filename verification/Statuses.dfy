/**
 * The status of a worker handle (src/worker-handle.js): what terminating and
 * retiring do to it, and when a worker on its way out comes back.
 */
module Statuses {
  import opened Prelude
  import opened Workers

  /**
   * Terminating disarms the timers and takes the thread; a worker being
   * preempted keeps that status. A second call does not wait for the thread: the
   * status is terminated although the thread may still be there.
   */
  lemma TerminateTells(s: State)
    ensures var t, u := Step(s, OpTerminate), Step(Step(s, OpTerminate), OpTerminate);
      && t.watchdog.None? && t.grace.None? && t.current == s.current && t.stream == s.stream && t.thread == s.thread
      && (s.link == Attached ==>
            && t.link == Closing && t.status == (if s.status == Preempting then Preempting else Terminating)
            && u.link == Closing && u.status == Terminated)
      && (s.link != Attached ==> t.link == s.link && t.status == Terminated)
  {
  }

  /** The `terminate` that waits for the thread is over when it is gone: then the handle is detached, and not before. */
  lemma TerminatedIff(s: State)
    ensures var t := Step(s, OpTerminated);
      && (t != s ==> s.link == Closing && s.thread == Gone)
      && (s.link == Closing && s.thread == Gone ==> t.link == Detached && t.status == Terminated)
  {
  }

  /** A worker on its way out whose thread has said that it is ready. */
  predicate Outgoing(s: State) {
    s.thread != Launched && (Leaving(s.status) || s.status == Preempting)
  }

  lemma {:induction false} DrainedOutgoing(s: State, n: nat)
    requires Outgoing(s)
    ensures Outgoing(Drained(s, n)) && Drained(s, n).log == s.log
    decreases n
  {
    if n > 0 {
      DrainedOutgoing(Terminate(s.(status := Terminating)), n - 1);
    }
  }

  lemma OutgoingStep(s: State, op: Op, t: State)
    requires Inv(s) && Outgoing(s) && t == Step(s, op)
    ensures Outgoing(t) && t.log.started == s.log.started && t.log.begun == s.log.begun
  {
    if op.OpMessage? && s.current.Some? {
      DrainedOutgoing(Vacated(s, true).(listeners := 0), s.listeners);
      DrainedOutgoing(Vacated(s, false).(listeners := 0), s.listeners);
    }
  }

  /** Once it is ready, a worker on its way out never comes back: it is idle in no continuation and takes nothing in. */
  lemma {:induction false} LeavingForGood(s: State, ops: seq<Op>)
    requires Inv(s) && Outgoing(s)
    ensures var t := Run(s, ops);
      && t.status != Idle && t.status != Busy && t.log.started == s.log.started && t.log.begun == s.log.begun
    decreases |ops|
  {
    if ops != [] {
      StepKept(s, ops[0]);
      OutgoingStep(s, ops[0], Step(s, ops[0]));
      LeavingForGood(Step(s, ops[0]), ops[1..]);
    }
  }

  /**
   * Before that it does: recycled, retired or terminated while it starts, a
   * worker is idle when its thread says that it is ready, and takes a task.
   */
  lemma ComesBack(s: State, op: Op, task: Task)
    requires Inv(s) && (op == OpMarkRecycling || op == OpRetire || op == OpTerminate)
    requires s.status == Starting && task.id !in s.settled
    ensures var t := Step(Step(s, op), OpMessage(Ready)); var u := Step(t, OpExecute(task));
      t.status == Idle && u.status == Busy && u.current == Some(task)
    ensures Step(s, op).status == (match op
                                   case OpMarkRecycling => Recycling
                                   case OpRetire => Draining
                                   case _ => if s.link == Attached then Terminating else Terminated)
  {
  }

  /** Marking for recycling is refused only by a worker that is terminating or terminated. */
  lemma MarkIff(s: State)
    ensures var t := Step(s, OpMarkRecycling);
      && (t.status == Recycling <==> s.status != Terminating && s.status != Terminated)
      && t == s.(status := t.status)
  {
  }

  /** Retiring a starting or busy worker twice is retiring it once; only an idle one is terminated at once. */
  lemma RetireTells(s: State)
    ensures var t := Step(s, OpRetire);
      && (s.status == Starting || s.status == Busy ==>
            t.status == Draining && t.listeners == s.listeners + 1 && t.link == s.link && Step(t, OpRetire) == t)
      && (s.status == Idle && s.link == Attached ==> t.status == Terminating && t.link == Closing)
      && (s.status != Starting && s.status != Busy && s.status != Idle ==> t == s)
  {
  }

  /**
   * The retirement that a worker outlived still waits: retired with a stream in
   * flight, or while it starts, it ends up idle, and the first task it is then
   * given terminates it when it settles.
   */
  lemma NextTaskRetires(s: State, success: bool, task: Task)
    requires Inv(s) && Retirable(s) && s.status != Idle && s.current.None? && task.id !in s.settled
    ensures var t := Step(Finish(Retire(s), success), OpExecute(task));
      && t.current == Some(task)
      && (var u := Step(t, OpMessage(Reply(task.id, success))); u.link == Closing && u.status == Terminating)
  {
    var idle := Finish(Retire(s), success);
    RetireDrainsIff(s, success);
    Retained(s, success, idle);
    var t := Step(idle, OpExecute(task));
    SettledRetires(t, task, success, Step(t, OpMessage(Reply(task.id, success))));
  }

  lemma Retained(s: State, success: bool, t: State)
    requires Inv(s) && Retirable(s) && s.status != Idle && s.current.None? && t == Finish(Retire(s), success)
    ensures t.status == Idle && t.link == Attached && t.listeners == 1 && t.settled == s.settled && t.thread != Gone
  {
  }

  lemma SettledRetires(s: State, task: Task, success: bool, t: State)
    requires s.current == Some(task) && s.link == Attached && s.listeners == 1 && s.thread != Gone && s.status == Busy
    requires t == OnMessage(s, Reply(task.id, success))
    ensures t.link == Closing && t.status == Terminating
  {
    var mid := Vacated(s, success).(listeners := 0);
    assert t == Drained(mid, 1);
    assert Drained(mid, 1) == Drained(Terminate(mid.(status := Terminating)), 0);
  }
}
