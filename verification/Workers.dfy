/**
 * One worker handle (src/worker-handle.js): its status, its task and stream
 * slots, its two timers, and the messages and events that move them.
 *
 * The thread says it is ready at most once, and says nothing after its exit.
 */
module Workers {
  import opened Prelude

  type Id = nat

  datatype Status = Starting | Idle | Busy | Recycling | Draining | Preempting | Terminating | Terminated

  /** `watched`: has a timeout and may be killed; `graceful`: is warned first. */
  datatype Task = Task(id: Id, watched: bool, graceful: bool)

  datatype Outcome = Succeeded | Failed | Crashed | Preempted

  /** A task leaves the slot. */
  datatype Departure = Departure(task: Task, how: Outcome)

  datatype Message =
    | Ready
    | InitError
    | Reply(id: Id, success: bool)
    | Chunk(id: Id)
    | End(id: Id)
    | Error(id: Id)

  /** The thread as its messages show it. */
  datatype Thread = Launched | Announced | Gone

  /** `#worker`: set, taken by a `terminate` that waits for the thread, or let go. */
  datatype Link = Attached | Closing | Detached

  /** The tasks and the streams taken in and let go so far. */
  datatype Log = Log(started: seq<Task>, departed: seq<Departure>, begun: seq<Id>, closed: seq<Id>)

  /** `listeners` counts the retirements that wait for a task to settle. */
  datatype State = State(
    status: Status,
    current: Option<Task>,
    stream: Option<Id>,
    preempted: bool,
    link: Link,
    listeners: nat,
    completed: nat,
    watchdog: Option<Task>,
    grace: Option<Task>,
    thread: Thread,
    settled: set<Id>,
    log: Log)

  datatype Op =
    | OpMessage(message: Message)
    | OpExit
    | OpExecute(task: Task)
    | OpStream(id: Id)
    | OpMarkRecycling
    | OpRetire
    | OpTerminate
    | OpTerminated
    | OpWatchdog
    | OpGrace
    | OpPreempt
    | OpSettle(id: Id)

  function Init(): State {
    State(Starting, None, None, false, Attached, 0, 0, None, None, Launched, {}, Log([], [], [], []))
  }

  // ---- The steps ----

  /** A settled task or stream does not bring these back to idle; `Draining` is not among them. */
  predicate Leaving(status: Status) {
    status == Recycling || status == Terminating || status == Terminated
  }

  function Terminate(s: State): State {
    var u := s.(watchdog := None, grace := None, status := if s.status == Preempting then Preempting else Terminating);
    if s.link == Attached then u.(link := Closing) else u.(status := Terminated)
  }

  /** Every waiting retirement pins the status and terminates. */
  function Drained(s: State, n: nat): State
    decreases n
  {
    if n == 0 then s else Drained(Terminate(s.(status := Terminating)), n - 1)
  }

  /** The slot is empty and the counters are updated, before any listener runs. */
  function Vacated(s: State, success: bool): State
    requires s.current.Some?
  {
    var task := s.current.value;
    s.(current := None, watchdog := None, grace := None,
       status := if Leaving(s.status) then s.status else Idle,
       completed := s.completed + 1,
       settled := if success then s.settled + {task.id} else s.settled,
       log := s.log.(departed := s.log.departed + [Departure(task, if success then Succeeded else Failed)]))
  }

  /** The stream slot is empty before `onEnd` or `onError` runs. */
  function TornDown(s: State): State
    requires s.stream.Some?
  {
    s.(stream := None, status := if Leaving(s.status) then s.status else Idle,
       log := s.log.(closed := s.log.closed + [s.stream.value]))
  }

  /** Any message that names the current task settles it, a stream frame as a failure. */
  function OnMessage(s: State, m: Message): State {
    if s.thread == Gone then s
    else if m.Ready? then (if s.thread == Announced then s else s.(status := Idle, thread := Announced))
    else if m.InitError? then s
    else if s.current.Some? && s.current.value.id == m.id then
      Drained(Vacated(s, m.Reply? && m.success).(listeners := 0), s.listeners)
    else if (m.End? || m.Error?) && s.stream == Some(m.id) then TornDown(s)
    else s
  }

  function Exit(s: State): State {
    if s.thread == Gone then s
    else
      var u := s.(watchdog := None, grace := None, status := Terminated, thread := Gone);
      if s.current.None? then u
      else u.(current := None, settled := s.settled + {s.current.value.id},
              log := s.log.(departed := s.log.departed + [Departure(s.current.value, Crashed)]))
  }

  function Execute(s: State, task: Task): State {
    if s.status != Idle || task.id in s.settled then s
    else s.(status := Busy, current := Some(task), log := s.log.(started := s.log.started + [task]),
            watchdog := if task.watched then Some(task) else s.watchdog,
            grace := if task.watched then None else s.grace)
  }

  function ExecuteStream(s: State, id: Id): State {
    if s.status != Idle || s.stream.Some? then s
    else s.(status := Busy, stream := Some(id), log := s.log.(begun := s.log.begun + [id]))
  }

  function MarkRecycling(s: State): State {
    if s.status == Terminating || s.status == Terminated then s else s.(status := Recycling)
  }

  function Retire(s: State): State {
    match s.status
    case Idle => Terminate(s)
    case Starting => s.(status := Draining, listeners := s.listeners + 1)
    case Busy => s.(status := Draining, listeners := s.listeners + 1)
    case _ => s
  }

  function Killed(s: State, task: Task): State {
    if s.status == Preempting || s.status == Terminated then s
    else
      var victim := if s.current.Some? then s.current.value else task;
      s.(status := Preempting, preempted := true, watchdog := None, grace := None, current := None,
         settled := s.settled + {victim.id}, log := s.log.(departed := s.log.departed + [Departure(victim, Preempted)]))
  }

  function Watchdog(s: State): State {
    if s.watchdog.None? then s
    else
      var task, u := s.watchdog.value, s.(watchdog := None);
      if task.id in s.settled || s.current != Some(task) then u
      else if task.graceful then u.(grace := Some(task))
      else Killed(u, task)
  }

  function Grace(s: State): State {
    if s.grace.None? then s else Killed(s.(grace := None), s.grace.value)
  }

  function Preempt(s: State): State {
    if s.current.None? then s else Killed(s, s.current.value)
  }

  function Step(s: State, op: Op): State {
    match op
    case OpMessage(m) => OnMessage(s, m)
    case OpExit => Exit(s)
    case OpExecute(t) => Execute(s, t)
    case OpStream(id) => ExecuteStream(s, id)
    case OpMarkRecycling => MarkRecycling(s)
    case OpRetire => Retire(s)
    case OpTerminate => Terminate(s)
    case OpTerminated => if s.link == Closing && s.thread == Gone then s.(status := Terminated, link := Detached) else s
    case OpWatchdog => Watchdog(s)
    case OpGrace => Grace(s)
    case OpPreempt => Preempt(s)
    case OpSettle(id) => s.(settled := s.settled + {id})
  }

  function Run(s: State, ops: seq<Op>): State
    decreases |ops|
  {
    if ops == [] then s else Run(Step(s, ops[0]), ops[1..])
  }

  /** A worker after `ops`, from its construction. */
  function After(ops: seq<Op>): State {
    Run(Init(), ops)
  }

  // ---- What every step keeps ----

  function Tasks(departed: seq<Departure>): seq<Task> {
    if departed == [] then [] else Tasks(departed[..|departed| - 1]) + [departed[|departed| - 1].task]
  }

  function Slot<T>(slot: Option<T>): seq<T> {
    if slot.Some? then [slot.value] else []
  }

  /** Everything taken in is still in its slot or left it once, in order; a preemption comes last. */
  ghost predicate Accounts(log: Log, current: Option<Task>, stream: Option<Id>, preempted: bool) {
    && Tasks(log.departed) + Slot(current) == log.started
    && log.closed + Slot(stream) == log.begun
    && (preempted <==> log.departed != [] && log.departed[|log.departed| - 1].how == Preempted)
  }

  ghost predicate History(s: State) {
    Accounts(s.log, s.current, s.stream, s.preempted)
  }

  ghost predicate Slots(s: State) {
    && (s.current.None? || s.stream.None?)
    && (s.status == Idle ==> s.current.None? && s.stream.None?)
    && (s.status == Busy ==> s.current.Some? || s.stream.Some?)
    && (s.thread == Gone ==> s.current.None? && (s.status == Terminating || s.status == Terminated))
  }

  /** At most one timer is armed, and for the task in the slot. */
  ghost predicate Timers(s: State) {
    && (s.watchdog.Some? ==> s.current == s.watchdog && s.grace.None?)
    && (s.grace.Some? ==> s.current == s.grace)
  }

  /** A task that may be killed has a timer until it settles or the thread is being terminated. */
  ghost predicate Covered(s: State) {
    && (s.current.Some? && s.current.value.watched && s.current.value.id !in s.settled && s.link == Attached ==>
          s.watchdog.Some? || s.grace.Some?)
    && (s.status == Terminated && s.link == Attached ==> s.current.None?)
  }

  ghost predicate Phases(s: State) {
    && (s.status == Starting ==> s.thread == Launched)
    && (s.thread == Launched ==> s.current.None? && s.stream.None? && s.status != Idle && s.status != Busy)
    && (s.status == Preempting ==> s.preempted)
    && (s.preempted ==>
          && s.thread != Launched && s.current.None? && s.stream.None?
          && (s.status == Preempting || Leaving(s.status)))
  }

  ghost predicate Control(s: State) {
    Slots(s) && Timers(s) && Covered(s) && Phases(s)
  }

  ghost predicate Inv(s: State) {
    History(s) && Control(s)
  }

  lemma TasksPush(departed: seq<Departure>, d: Departure)
    ensures Tasks(departed + [d]) == Tasks(departed) + [d.task]
  {
    assert (departed + [d])[..|departed|] == departed;
  }

  lemma {:induction false} DrainedControl(s: State, n: nat)
    requires Control(s) && (n > 0 ==> !s.preempted)
    ensures Control(Drained(s, n))
    decreases n
  {
    if n > 0 {
      DrainedControl(Terminate(s.(status := Terminating)), n - 1);
    }
  }

  lemma {:induction false} DrainedSame(s: State, n: nat)
    ensures var t := Drained(s, n);
      t.log == s.log && t.current == s.current && t.stream == s.stream && t.preempted == s.preempted
    decreases n
  {
    if n > 0 {
      DrainedSame(Terminate(s.(status := Terminating)), n - 1);
    }
  }

  lemma {:induction false} DrainedThread(s: State, n: nat)
    ensures Drained(s, n).thread == s.thread && Drained(s, n).completed == s.completed
    decreases n
  {
    if n > 0 {
      DrainedThread(Terminate(s.(status := Terminating)), n - 1);
    }
  }

  lemma VacatedControl(s: State, success: bool)
    requires Control(s) && s.current.Some?
    ensures Control(Vacated(s, success)) && !s.preempted
  {
  }

  lemma Leave(log: Log, task: Task, stream: Option<Id>, how: Outcome)
    requires Accounts(log, Some(task), stream, false)
    ensures Accounts(log.(departed := log.departed + [Departure(task, how)]), None, stream, how == Preempted)
  {
    TasksPush(log.departed, Departure(task, how));
  }

  lemma VacatedKept(s: State, success: bool)
    requires Inv(s) && s.current.Some?
    ensures Inv(Vacated(s, success)) && !Vacated(s, success).preempted
  {
    VacatedControl(s, success);
    Leave(s.log, s.current.value, s.stream, if success then Succeeded else Failed);
  }

  lemma DrainedKept(s: State, n: nat)
    requires Inv(s) && !s.preempted
    ensures Inv(Drained(s, n))
  {
    DrainedControl(s, n);
    DrainedSame(s, n);
  }

  lemma MessageKept(s: State, m: Message)
    requires Inv(s)
    ensures Inv(OnMessage(s, m))
  {
    if s.thread != Gone && !m.Ready? && !m.InitError? && s.current.Some? && s.current.value.id == m.id {
      VacatedKept(s, m.Reply? && m.success);
      DrainedKept(Vacated(s, m.Reply? && m.success).(listeners := 0), s.listeners);
    }
  }

  lemma KilledKept(s: State, task: Task)
    requires History(s) && Slots(s) && Timers(s) && Phases(s) && s.current == Some(task)
    requires s.status == Terminated ==> s.link != Attached
    ensures Inv(Killed(s, task))
  {
    Leave(s.log, task, s.stream, Preempted);
  }

  lemma ExitKept(s: State)
    requires Inv(s)
    ensures Inv(Exit(s))
  {
    if s.current.Some? {
      Leave(s.log, s.current.value, s.stream, Crashed);
    }
  }

  lemma TimerKept(s: State, op: Op)
    requires Inv(s) && (op.OpWatchdog? || op.OpGrace? || op.OpPreempt?)
    ensures Inv(Step(s, op))
  {
    if s.current.Some? {
      KilledKept(s.(watchdog := None), s.current.value);
      KilledKept(s.(grace := None), s.current.value);
      KilledKept(s, s.current.value);
    }
  }

  lemma ExecuteKept(s: State, task: Task)
    requires Inv(s)
    ensures Inv(Execute(s, task))
  {
  }

  /** The steps that move no task: status, link and timers only. */
  lemma StatusKept(s: State, op: Op)
    requires Inv(s) && (op.OpMarkRecycling? || op.OpRetire? || op.OpTerminate? || op.OpTerminated? || op.OpSettle?)
    ensures Inv(Step(s, op))
  {
    var t := Step(s, op);
    assert t.log == s.log && t.current == s.current && t.stream == s.stream && t.preempted == s.preempted;
  }

  lemma StreamKept(s: State, id: Id)
    requires Inv(s)
    ensures Inv(ExecuteStream(s, id))
  {
  }

  lemma StepKept(s: State, op: Op)
    requires Inv(s)
    ensures Inv(Step(s, op))
  {
    match op
    case OpMessage(m) => MessageKept(s, m);
    case OpExit => ExitKept(s);
    case OpExecute(t) => ExecuteKept(s, t);
    case OpStream(id) => StreamKept(s, id);
    case OpWatchdog => TimerKept(s, op);
    case OpGrace => TimerKept(s, op);
    case OpPreempt => TimerKept(s, op);
    case _ => StatusKept(s, op);
  }

  lemma {:induction false} RunKept(s: State, ops: seq<Op>)
    requires Inv(s)
    ensures Inv(Run(s, ops))
    decreases |ops|
  {
    if ops != [] {
      StepKept(s, ops[0]);
      RunKept(Step(s, ops[0]), ops[1..]);
    }
  }

  lemma {:induction false} RunPush(s: State, ops: seq<Op>, op: Op)
    ensures Run(s, ops + [op]) == Step(Run(s, ops), op)
    decreases |ops|
  {
    if ops == [] {
      assert [op][1..] == [];
    } else {
      assert (ops + [op])[1..] == ops[1..] + [op];
      RunPush(Step(s, ops[0]), ops[1..], op);
    }
  }

  // ---- One outcome per task ----

  /**
   * Every started task leaves the slot exactly once, in start order, whatever
   * results, crash and preemption do; when the thread is gone all have left.
   */
  lemma OneOutcomeEach(ops: seq<Op>)
    ensures var s := After(ops);
      && Tasks(s.log.departed) + Slot(s.current) == s.log.started
      && (s.thread == Gone ==> Tasks(s.log.departed) == s.log.started)
      && s.log.closed + Slot(s.stream) == s.log.begun
  {
    RunKept(Init(), ops);
  }

  /** A task and a stream never share the worker, and an idle worker has neither. */
  lemma SlotsExclusive(ops: seq<Op>)
    ensures var s := After(ops);
      && (s.current.None? || s.stream.None?)
      && (s.status == Idle ==> s.current.None? && s.stream.None?)
      && (s.status == Busy ==> s.current.Some? || s.stream.Some?)
  {
    RunKept(Init(), ops);
  }

  /** No timer outlives its task, and an unsettled task that may be killed is never without one. */
  lemma TimersWatchCurrent(ops: seq<Op>)
    ensures var s := After(ops);
      && (s.watchdog.Some? ==> s.current == s.watchdog && s.grace.None?)
      && (s.grace.Some? ==> s.current == s.grace)
      && (s.current.Some? && s.current.value.watched && s.current.value.id !in s.settled && s.link == Attached ==>
            s.watchdog.Some? || s.grace.Some?)
  {
    RunKept(Init(), ops);
  }

  /** The watchdog of an unsettled task ends in its preemption, after the grace period if it has one. */
  lemma WatchdogKills(ops: seq<Op>)
    requires After(ops).watchdog.Some? && After(ops).watchdog.value.id !in After(ops).settled
    requires After(ops).link == Attached
    ensures var s, task := After(ops), After(ops).watchdog.value;
      var fired := Watchdog(s); var ended := if task.graceful then Grace(fired) else fired;
      && (task.graceful ==> fired.current == Some(task) && fired.log == s.log)
      && ended.preempted && ended.status == Preempting && ended.current.None?
      && ended.log.departed == s.log.departed + [Departure(task, Preempted)]
  {
    RunKept(Init(), ops);
  }

  lemma {:induction false} PreemptedRun(s: State, ops: seq<Op>)
    requires Inv(s) && s.preempted
    ensures var t := Run(s, ops);
      t.preempted && t.status != Idle && t.log.started == s.log.started && t.log.departed == s.log.departed
    decreases |ops|
  {
    if ops != [] {
      StepKept(s, ops[0]);
      PreemptedRun(Step(s, ops[0]), ops[1..]);
    }
  }

  /** After a preemption the worker is never idle again: nothing more starts or leaves. */
  lemma PreemptedForGood(ops: seq<Op>, more: seq<Op>)
    requires After(ops).preempted
    ensures var s, t := After(ops), Run(After(ops), more);
      && s.log.departed != [] && s.log.departed[|s.log.departed| - 1].how == Preempted
      && t.status != Idle && t.log.started == s.log.started && t.log.departed == s.log.departed
  {
    RunKept(Init(), ops);
    PreemptedRun(After(ops), more);
  }

  lemma {:induction false} GoneRun(s: State, ops: seq<Op>)
    requires Inv(s) && s.thread == Gone
    ensures var t := Run(s, ops);
      t.stream == s.stream && t.log.closed == s.log.closed && t.log.departed == s.log.departed && t.status != Idle
    decreases |ops|
  {
    if ops != [] {
      StepKept(s, ops[0]);
      GoneRun(Step(s, ops[0]), ops[1..]);
    }
  }

  /**
   * The exit closes the task but not the stream: a stream in flight keeps its
   * slot for ever and its handler never hears of an end or an error.
   */
  lemma StreamLeftOpenIff(ops: seq<Op>, more: seq<Op>)
    requires After(ops).thread != Gone
    ensures var s, t := After(ops), Run(Exit(After(ops)), more);
      && Tasks(t.log.departed) == s.log.started
      && t.log.closed == s.log.closed
      && (t.log.closed == s.log.begun <==> s.stream.None?)
  {
    RunKept(Init(), ops);
    ExitKept(After(ops));
    GoneRun(Exit(After(ops)), more);
  }

  // ---- Retirement ----

  /** What the thread does next, with nothing else in between: its work ends, or it becomes ready. */
  function Finish(s: State, success: bool): State {
    if s.current.Some? then OnMessage(s, Reply(s.current.value.id, success))
    else if s.stream.Some? then OnMessage(s, End(s.stream.value))
    else OnMessage(s, Ready)
  }

  /** The worker can still be retired, and no retirement is pending. */
  predicate Retirable(s: State) {
    && s.link == Attached && s.thread != Gone && s.listeners == 0
    && (s.status == Starting || s.status == Idle || s.status == Busy)
  }

  /**
   * Retiring terminates the worker when its work is done exactly when it has a
   * task or is idle. With a stream, or while it starts, it ends up idle.
   */
  lemma RetireDrainsIff(s: State, success: bool)
    requires Inv(s) && Retirable(s)
    ensures var t := Finish(Retire(s), success);
      && (t.link == Closing && t.status == Terminating <==> s.status == Idle || s.current.Some?)
      && (s.status != Idle && s.current.None? ==> t.status == Idle && t.link == Attached)
  {
    if s.current.Some? {
      var mid := Vacated(Retire(s), success).(listeners := 0);
      assert Finish(Retire(s), success) == Drained(mid, 1);
      assert Drained(mid, 1) == Drained(Terminate(mid.(status := Terminating)), 0);
    }
  }

  /** Between the settling of its task and the pinning, a retired worker shows as idle to every listener. */
  lemma DrainingShowsIdle(s: State, success: bool)
    requires Inv(s) && s.status == Busy && s.current.Some?
    ensures Vacated(Retire(s), success).status == Idle
  {
  }

  /** Steps that leave an idle worker's thread alone: everything but a termination, a retirement or new work. */
  predicate Undisturbing(op: Op) {
    !op.OpTerminate? && !op.OpRetire? && !op.OpExecute?
  }

  /** Such a worker is never terminated: its thread stays attached whatever else happens. */
  lemma {:induction false} RetiredLingers(s: State, ops: seq<Op>)
    requires s.link == Attached && s.current.None? && forall op :: op in ops ==> Undisturbing(op)
    ensures Run(s, ops).link == Attached
    decreases |ops|
  {
    if ops != [] {
      assert ops[0] in ops;
      RetiredLingers(Step(s, ops[0]), ops[1..]);
    }
  }

  // ---- The class ----

  datatype Dispatch = Refused | Skipped | Posted | Unattached

  class WorkerHandle {
    var status: Status
    var currentTask: Option<Task>
    var streamTask: Option<Id>
    var isPreempted: bool
    var worker: Link
    var listeners: nat
    var tasksCompleted: nat
    var watchdogTimer: Option<Task>
    var graceTimer: Option<Task>
    var settled: set<Id>
    ghost var thread: Thread
    ghost var log: Log

    ghost function Abs(): State
      reads this
    {
      State(status, currentTask, streamTask, isPreempted, worker, listeners, tasksCompleted,
            watchdogTimer, graceTimer, thread, settled, log)
    }

    constructor ()
      ensures Abs() == Init()
    {
      status, currentTask, streamTask, isPreempted, worker := Starting, None, None, false, Attached;
      listeners, tasksCompleted, watchdogTimer, graceTimer, settled := 0, 0, None, None, {};
      thread, log := Launched, Log([], [], [], []);
    }

    method ClearWatchdog()
      modifies `watchdogTimer, `graceTimer
      ensures watchdogTimer == None && graceTimer == None
    {
      if watchdogTimer.Some? {
        watchdogTimer := None;
      }
      if graceTimer.Some? {
        graceTimer := None;
      }
    }

    method BackToIdle()
      modifies `status
      ensures status == if Leaving(old(status)) then old(status) else Idle
    {
      if status != Recycling && status != Terminating && status != Terminated {
        status := Idle;
      }
    }

    method OnReady()
      requires thread == Launched
      modifies this
      ensures Abs() == Step(old(Abs()), OpMessage(Ready))
    {
      thread := Announced;
      status := Idle;
    }

    /** A message about a task or a stream. */
    method OnFrame(m: Message)
      requires thread != Gone && !m.Ready? && !m.InitError?
      modifies this
      ensures Abs() == Step(old(Abs()), OpMessage(m))
    {
      if currentTask.Some? && currentTask.value.id == m.id {
        Settle(m.Reply? && m.success);
        var n := listeners;
        listeners := 0;
        while n > 0
          invariant Drained(Abs(), n)
                 == Drained(Vacated(old(Abs()), m.Reply? && m.success).(listeners := 0), old(listeners))
        {
          status := Terminating;
          Terminate();
          n := n - 1;
        }
      } else if (m.End? || m.Error?) && streamTask == Some(m.id) {
        TeardownStream();
      }
    }

    method Settle(success: bool)
      requires currentTask.Some?
      modifies this
      ensures Abs() == Vacated(old(Abs()), success)
    {
      ClearWatchdog();
      var task := currentTask.value;
      currentTask := None;
      BackToIdle();
      tasksCompleted := tasksCompleted + 1;
      if success {
        settled := settled + {task.id};
      }
      log := log.(departed := log.departed + [Departure(task, if success then Succeeded else Failed)]);
    }

    method TeardownStream()
      requires streamTask.Some?
      modifies this
      ensures Abs() == TornDown(old(Abs()))
    {
      log := log.(closed := log.closed + [streamTask.value]);
      streamTask := None;
      BackToIdle();
    }

    method OnExit() returns (prevStatus: Status)
      requires thread != Gone
      modifies this
      ensures Abs() == Step(old(Abs()), OpExit) && prevStatus == old(status)
    {
      ClearWatchdog();
      prevStatus := status;
      status := Terminated;
      thread := Gone;
      if currentTask.Some? {
        var task := currentTask.value;
        currentTask := None;
        settled := settled + {task.id};
        log := log.(departed := log.departed + [Departure(task, Crashed)]);
      }
    }

    method ExecuteTask(task: Task) returns (r: Dispatch)
      modifies this
      ensures Abs() == Step(old(Abs()), OpExecute(task))
      ensures r == (if old(status) != Idle then Refused else if task.id in old(settled) then Skipped
                    else if old(worker) == Attached then Posted else Unattached)
    {
      if status != Idle {
        return Refused;
      }
      if task.id in settled {
        return Skipped;
      }
      status := Busy;
      currentTask := Some(task);
      log := log.(started := log.started + [task]);
      if task.watched {
        ClearWatchdog();
        watchdogTimer := Some(task);
      }
      return if worker == Attached then Posted else Unattached;
    }

    method ExecuteStreamTask(id: Id) returns (r: Dispatch)
      modifies this
      ensures Abs() == Step(old(Abs()), OpStream(id))
      ensures r == (if old(status) != Idle || old(streamTask).Some? then Refused
                    else if old(worker) == Attached then Posted else Unattached)
    {
      if status != Idle {
        return Refused;
      }
      if streamTask.Some? {
        return Refused;
      }
      status := Busy;
      streamTask := Some(id);
      log := log.(begun := log.begun + [id]);
      return if worker == Attached then Posted else Unattached;
    }

    method SetRecycling()
      modifies this
      ensures Abs() == Step(old(Abs()), OpMarkRecycling)
    {
      if status == Terminating || status == Terminated {
        return;
      }
      status := Recycling;
    }

    method Retire()
      modifies this
      ensures Abs() == Step(old(Abs()), OpRetire)
    {
      if status == Terminating || status == Terminated || status == Draining || status == Recycling
         || status == Preempting {
        return;
      }
      if status == Idle {
        Terminate();
        return;
      }
      status := Draining;
      listeners := listeners + 1;
    }

    method Terminate()
      modifies this
      ensures Abs() == Step(old(Abs()), OpTerminate)
    {
      ClearWatchdog();
      if status != Preempting {
        status := Terminating;
      }
      if worker == Attached {
        worker := Closing;
        return;
      }
      status := Terminated;
    }

    /** The thread that `terminate` waited for is gone. */
    method OnTerminated()
      requires worker == Closing && thread == Gone
      modifies this
      ensures Abs() == Step(old(Abs()), OpTerminated)
    {
      worker := Detached;
      status := Terminated;
    }

    method PreemptWorker(task: Task)
      modifies this
      ensures Abs() == Killed(old(Abs()), task)
    {
      if status == Preempting || status == Terminated {
        return;
      }
      status := Preempting;
      isPreempted := true;
      ClearWatchdog();
      var victim := if currentTask.Some? then currentTask.value else task;
      currentTask := None;
      settled := settled + {victim.id};
      log := log.(departed := log.departed + [Departure(victim, Preempted)]);
    }

    method Preempt()
      modifies this
      ensures Abs() == Step(old(Abs()), OpPreempt)
    {
      if status == Preempting || status == Terminated {
        return;
      }
      if currentTask.None? {
        return;
      }
      PreemptWorker(currentTask.value);
    }

    method OnWatchdog()
      requires watchdogTimer.Some?
      modifies this
      ensures Abs() == Step(old(Abs()), OpWatchdog)
    {
      var task := watchdogTimer.value;
      watchdogTimer := None;
      if task.id in settled || currentTask != Some(task) {
        return;
      }
      if task.graceful {
        graceTimer := Some(task);
      } else {
        PreemptWorker(task);
      }
    }

    method OnGrace()
      requires graceTimer.Some?
      modifies this
      ensures Abs() == Step(old(Abs()), OpGrace)
    {
      var task := graceTimer.value;
      graceTimer := None;
      PreemptWorker(task);
    }
  }
}
