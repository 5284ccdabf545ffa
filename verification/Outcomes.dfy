/**
 * Which outcome a task gets (src/worker-handle.js): `Workers.OneOutcomeEach`
 * says that every started task leaves its slot once, this module what it
 * leaves as, what that settles, and what starts.
 */
module Outcomes {
  import opened Prelude
  import opened Workers

  /** A message that names the task, other than the reply of a success. */
  predicate Refutes(m: Message, id: Id) {
    m == Reply(id, false) || m == Chunk(id) || m == End(id) || m == Error(id)
  }

  /** A kill meets its task: its watchdog finds it unsettled, without grace, its grace is over, or it is asked for. */
  predicate Kills(s: State, op: Op, task: Task) {
    && s.status != Terminated
    && (|| (op.OpWatchdog? && s.watchdog == Some(task) && task.id !in s.settled && !task.graceful)
        || (op.OpGrace? && s.grace == Some(task))
        || op.OpPreempt?)
  }

  /** This step takes the task out of the slot, with this outcome. */
  predicate Makes(s: State, op: Op, d: Departure) {
    && s.current == Some(d.task)
    && match d.how
       case Succeeded => op == OpMessage(Reply(d.task.id, true))
       case Failed => op.OpMessage? && Refutes(op.message, d.task.id)
       case Crashed => op.OpExit?
       case Preempted => Kills(s, op, d.task)
  }

  predicate OneMore(a: seq<Departure>, b: seq<Departure>) {
    |b| == |a| + 1 && b[..|a|] == a
  }

  lemma MessageMakes(s: State, m: Message, t: State, d: Departure)
    requires Inv(s) && t == OnMessage(s, m)
    ensures t.log.departed == s.log.departed + [d] <==> Makes(s, OpMessage(m), d)
    ensures t.log.departed == s.log.departed || OneMore(s.log.departed, t.log.departed)
  {
    if s.thread != Gone && !m.Ready? && !m.InitError? && s.current.Some? && s.current.value.id == m.id {
      var made := Departure(s.current.value, if m.Reply? && m.success then Succeeded else Failed);
      DrainedSame(Vacated(s, m.Reply? && m.success).(listeners := 0), s.listeners);
      assert t.log.departed == s.log.departed + [made];
      assert (s.log.departed + [made])[|s.log.departed|] == made && (s.log.departed + [d])[|s.log.departed|] == d;
    }
  }

  lemma KillMakes(s: State, op: Op, t: State, d: Departure)
    requires Inv(s) && t == Step(s, op) && (op.OpWatchdog? || op.OpGrace? || op.OpPreempt?)
    ensures t.log.departed == s.log.departed + [d] <==> Makes(s, op, d)
    ensures t.log.departed == s.log.departed || OneMore(s.log.departed, t.log.departed)
  {
    if s.current.Some? {
      var made := Departure(s.current.value, Preempted);
      assert (s.log.departed + [made])[|s.log.departed|] == made && (s.log.departed + [d])[|s.log.departed|] == d;
    }
  }

  lemma ExitMakes(s: State, t: State, d: Departure)
    requires Inv(s) && t == Exit(s)
    ensures t.log.departed == s.log.departed + [d] <==> Makes(s, OpExit, d)
    ensures t.log.departed == s.log.departed || OneMore(s.log.departed, t.log.departed)
  {
    if s.current.Some? {
      var made := Departure(s.current.value, Crashed);
      assert (s.log.departed + [made])[|s.log.departed|] == made && (s.log.departed + [d])[|s.log.departed|] == d;
    }
  }

  /**
   * A reply of success, any other message that names the task, the exit of the
   * thread and a kill each give the task in the slot their own outcome, and
   * nothing else takes a task out.
   */
  lemma DepartsIff(s: State, op: Op, t: State, d: Departure)
    requires Inv(s) && t == Step(s, op)
    ensures t.log.departed == s.log.departed + [d] <==> Makes(s, op, d)
    ensures t.log.departed == s.log.departed || OneMore(s.log.departed, t.log.departed)
  {
    match op
    case OpMessage(m) => MessageMakes(s, m, t, d);
    case OpExit => ExitMakes(s, t, d);
    case OpWatchdog => KillMakes(s, op, t, d);
    case OpGrace => KillMakes(s, op, t, d);
    case OpPreempt => KillMakes(s, op, t, d);
    case _ => assert t.log.departed == s.log.departed;
  }

  // ---- Over whole runs ----

  /** The `k`-th step of the run makes the departure. */
  predicate MakesAt(ops: seq<Op>, k: nat, d: Departure)
    requires k < |ops|
  {
    Makes(After(ops[..k]), ops[k], d)
  }

  lemma AfterLast(ops: seq<Op>)
    requires ops != []
    ensures After(ops) == Step(After(ops[..|ops| - 1]), ops[|ops| - 1])
  {
    var n := |ops| - 1;
    assert ops == ops[..n] + [ops[n]];
    RunPush(Init(), ops[..n], ops[n]);
  }

  /**
   * Outcomes tell the truth: in every run the `i`-th departure was made by a
   * step of its kind, while that task was in the slot. So it is a success if and
   * only if a reply of success made it, a crash if and only if the exit did, and
   * a preemption if and only if a kill did.
   */
  lemma {:induction false} OutcomesTell(ops: seq<Op>, i: nat) returns (k: nat)
    requires i < |After(ops).log.departed|
    ensures k < |ops| && |After(ops[..k]).log.departed| == i && MakesAt(ops, k, After(ops).log.departed[i])
    decreases |ops|
  {
    k := |ops| - 1;
    var s, d := After(ops[..k]), After(ops).log.departed[i];
    RunKept(Init(), ops[..k]);
    AfterLast(ops);
    DepartsIff(s, ops[k], After(ops), d);
    if i < |s.log.departed| {
      assert s.log.departed[i] == d;
      k := OutcomesTell(ops[..k], i);
      assert ops[..|ops| - 1][..k] == ops[..k];
    } else {
      assert After(ops).log.departed == s.log.departed + [d];
    }
  }

  /** The tasks that leave the slot settled: all but those that failed, which are left to their submitter. */
  function Closed(departed: seq<Departure>): set<Id> {
    set d | d in departed && d.how != Failed :: d.task.id
  }

  /** The tasks settled by somebody else. */
  function Elsewhere(ops: seq<Op>): set<Id> {
    set op | op in ops && op.OpSettle? :: op.id
  }

  /** The departures by a message: results, good or bad. */
  function Results(departed: seq<Departure>): nat {
    if departed == [] then 0
    else
      var how := departed[|departed| - 1].how;
      Results(departed[..|departed| - 1]) + (if how == Succeeded || how == Failed then 1 else 0)
  }

  /** What one step settles and counts is what it takes out. */
  ghost predicate Booked(s: State, op: Op, t: State) {
    s.log.departed <= t.log.departed &&
    var more := t.log.departed[|s.log.departed|..];
    && t.settled == s.settled + (if op.OpSettle? then {op.id} else {}) + Closed(more)
    && t.completed == s.completed + Results(more)
  }

  lemma BookMade(s: State, op: Op, t: State, made: Departure)
    requires t.log.departed == s.log.departed + [made] && !op.OpSettle?
    requires t.settled == s.settled + (if made.how == Failed then {} else {made.task.id})
    requires t.completed == s.completed + (if made.how == Succeeded || made.how == Failed then 1 else 0)
    ensures Booked(s, op, t)
  {
    assert t.log.departed[|s.log.departed|..] == [made] && [made][..0] == [];
  }

  lemma BookNone(s: State, op: Op, t: State)
    requires t.log.departed == s.log.departed && t.completed == s.completed
    requires t.settled == s.settled + (if op.OpSettle? then {op.id} else {})
    ensures Booked(s, op, t)
  {
    assert t.log.departed[|s.log.departed|..] == [];
  }

  lemma BookMessage(s: State, m: Message, t: State)
    requires Inv(s) && t == OnMessage(s, m)
    ensures Booked(s, OpMessage(m), t)
  {
    if s.thread != Gone && !m.Ready? && !m.InitError? && s.current.Some? && s.current.value.id == m.id {
      var made := Departure(s.current.value, if m.Reply? && m.success then Succeeded else Failed);
      DrainedSame(Vacated(s, m.Reply? && m.success).(listeners := 0), s.listeners);
      DrainedBooks(Vacated(s, m.Reply? && m.success).(listeners := 0), s.listeners);
      BookMade(s, OpMessage(m), t, made);
    } else {
      BookNone(s, OpMessage(m), t);
    }
  }

  lemma {:induction false} DrainedBooks(s: State, n: nat)
    ensures Drained(s, n).settled == s.settled && Drained(s, n).completed == s.completed
    decreases n
  {
    if n > 0 {
      DrainedBooks(Terminate(s.(status := Terminating)), n - 1);
    }
  }

  lemma BookStep(s: State, op: Op, t: State)
    requires Inv(s) && t == Step(s, op)
    ensures Booked(s, op, t)
  {
    if op.OpMessage? {
      BookMessage(s, op.message, t);
    } else if t.log.departed == s.log.departed {
      BookNone(s, op, t);
    } else {
      BookMade(s, op, t, Departure(s.current.value, if op.OpExit? then Crashed else Preempted));
    }
  }

  lemma {:induction false} ResultsJoin(a: seq<Departure>, b: seq<Departure>)
    ensures Results(a + b) == Results(a) + Results(b)
    decreases |b|
  {
    if b == [] {
      assert a + b == a;
    } else {
      assert (a + b)[..|a + b| - 1] == a + b[..|b| - 1];
      ResultsJoin(a, b[..|b| - 1]);
    }
  }

  /**
   * What is settled and what is counted follow from the outcomes: over every run
   * a task is settled if and only if it succeeded, crashed or was preempted
   * here, or was settled elsewhere; and the count is that of the results.
   */
  lemma {:induction false} SettledIff(ops: seq<Op>)
    ensures var s := After(ops);
      && s.settled == Closed(s.log.departed) + Elsewhere(ops)
      && s.completed == Results(s.log.departed)
    decreases |ops|
  {
    if ops != [] {
      var n := |ops| - 1;
      SettledIff(ops[..n]);
      RunKept(Init(), ops[..n]);
      AfterLast(ops);
      BookStep(After(ops[..n]), ops[n], After(ops));
      BooksJoin(After(ops[..n]), ops[n], After(ops), ops);
    }
  }

  lemma BooksJoin(s: State, op: Op, t: State, ops: seq<Op>)
    requires Booked(s, op, t) && ops != [] && op == ops[|ops| - 1]
    requires s.settled == Closed(s.log.departed) + Elsewhere(ops[..|ops| - 1])
    requires s.completed == Results(s.log.departed)
    ensures t.settled == Closed(t.log.departed) + Elsewhere(ops) && t.completed == Results(t.log.departed)
  {
    var n := |ops| - 1;
    var more := t.log.departed[|s.log.departed|..];
    assert t.log.departed == s.log.departed + more;
    ResultsJoin(s.log.departed, more);
    ClosedJoin(s.log.departed, more);
    ElsewherePush(ops);
  }

  lemma ElsewherePush(ops: seq<Op>)
    requires ops != []
    ensures var op := ops[|ops| - 1];
      Elsewhere(ops) == Elsewhere(ops[..|ops| - 1]) + (if op.OpSettle? then {op.id} else {})
  {
    assert ops == ops[..|ops| - 1] + [ops[|ops| - 1]];
  }

  lemma ClosedJoin(a: seq<Departure>, b: seq<Departure>)
    ensures Closed(a + b) == Closed(a) + Closed(b)
  {
    forall id | id in Closed(a) + Closed(b) ensures id in Closed(a + b) {
      if id in Closed(a) {
        var d :| d in a && d.how != Failed && d.task.id == id;
        assert d in a + b;
      } else {
        var d :| d in b && d.how != Failed && d.task.id == id;
        assert d in a + b;
      }
    }
  }

  // ---- What starts, and what closes ----

  /** A task starts if and only if it comes to an idle worker unsettled; it is timed exactly if it may be killed. */
  lemma StartsIff(s: State, op: Op, t: State, task: Task)
    requires Inv(s) && t == Step(s, op)
    ensures t.log.started == s.log.started + [task]
            <==> op == OpExecute(task) && s.status == Idle && task.id !in s.settled
    ensures t.log.started != s.log.started ==>
              t.status == Busy && t.current.Some? && t.grace.None?
              && t.watchdog == (if t.current.value.watched then t.current else None)
  {
    if op.OpExecute? {
      assert (s.log.started + [op.task])[|s.log.started|] == op.task;
      assert (s.log.started + [task])[|s.log.started|] == task;
    } else if op.OpMessage? && s.current.Some? {
      DrainedSame(Vacated(s, true).(listeners := 0), s.listeners);
      DrainedSame(Vacated(s, false).(listeners := 0), s.listeners);
    }
  }

  /** Only a task that may be killed is ever timed, and only one with a grace period warned. */
  ghost predicate TimedRightly(s: State) {
    && (s.watchdog.Some? ==> s.watchdog.value.watched)
    && (s.grace.Some? ==> s.grace.value.watched && s.grace.value.graceful)
  }

  lemma {:induction false} DrainedTimers(s: State, n: nat)
    requires s.watchdog.None? && s.grace.None?
    ensures Drained(s, n).watchdog.None? && Drained(s, n).grace.None?
    decreases n
  {
    if n > 0 {
      DrainedTimers(Terminate(s.(status := Terminating)), n - 1);
    }
  }

  lemma {:induction false} TimersRightly(ops: seq<Op>)
    ensures TimedRightly(After(ops))
    decreases |ops|
  {
    if ops != [] {
      var n := |ops| - 1;
      TimersRightly(ops[..n]);
      AfterLast(ops);
      TimedStep(After(ops[..n]), ops[n], After(ops));
    }
  }

  lemma TimedStep(s: State, op: Op, t: State)
    requires TimedRightly(s) && t == Step(s, op)
    ensures TimedRightly(t)
  {
    if op.OpMessage? && s.current.Some? {
      DrainedTimers(Vacated(s, true).(listeners := 0), s.listeners);
      DrainedTimers(Vacated(s, false).(listeners := 0), s.listeners);
    }
  }

  /** A stream starts if and only if it comes to an idle worker, and is closed if and only if its end or error comes. */
  lemma StreamsIff(s: State, op: Op, t: State, id: Id)
    requires Inv(s) && t == Step(s, op)
    ensures t.log.begun == s.log.begun + [id] <==> op == OpStream(id) && s.status == Idle
    ensures t.log.closed == s.log.closed + [id]
            <==> (op == OpMessage(End(id)) || op == OpMessage(Error(id))) && s.stream == Some(id) && s.thread != Gone
  {
    if op.OpStream? {
      assert (s.log.begun + [op.id])[|s.log.begun|] == op.id && (s.log.begun + [id])[|s.log.begun|] == id;
    }
    if s.stream.Some? {
      assert (s.log.closed + [s.stream.value])[|s.log.closed|] == s.stream.value;
      assert (s.log.closed + [id])[|s.log.closed|] == id;
    }
    if op.OpMessage? && s.current.Some? {
      DrainedSame(Vacated(s, true).(listeners := 0), s.listeners);
      DrainedSame(Vacated(s, false).(listeners := 0), s.listeners);
    }
  }
}
