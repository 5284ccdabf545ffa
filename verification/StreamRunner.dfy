/**
 * The worker side of a stream (src/stream-runner.js): the pause controller,
 * the `runStream` loop, and the loop cut at its awaits into a state machine
 * so that control messages can arrive at each of them.
 */
module StreamRunner {
  import opened Prelude
  import opened Streams

  datatype Control = Pause | Resume | Abort

  /** What the generator does when asked for its next step. */
  datatype GenStep = Yields(value: Chunk) | Returns | Throws(error: Failure)

  datatype Frame = ChunkFrame(seqNo: nat, chunk: Chunk) | EndFrame(wasAborted: bool) | ErrorFrame(error: Failure)

  /** Where the worker stands: at which await, or before or after the run. */
  datatype Phase =
    | Loading
    | Pulling
    | Parked(held: Chunk)
    | Ready(held: Chunk)
    | Closing
    | Finished

  datatype Worker = Worker(
    phase: Phase,
    paused: bool,
    aborted: bool,
    seqNo: nat,
    produced: seq<Chunk>,
    posted: seq<Frame>)

  /**
   * One event at the worker. An event that does not fit the phase changes
   * nothing. A load that fails is answered with the result message of a task,
   * which is no frame of the stream (src/worker-thread-entry.js).
   */
  datatype Input =
    | Start(fnThrows: Option<Failure>)
    | LoadFails
    | Ctl(control: Control)
    | Gen(step: GenStep)
    | Wake
    | Closed

  const Idle := Worker(Loading, false, false, 0, [], [])

  predicate Registered(w: Worker) { !w.phase.Loading? && !w.phase.Finished? }

  function Post(w: Worker, f: Frame, next: Phase): Worker {
    w.(posted := w.posted + [f], phase := next)
  }

  /** Control messages reach the run only while it is registered (src/worker-thread-entry.js). */
  function Handle(w: Worker, c: Control): Worker {
    if !Registered(w) then w
    else match c
      case Pause => w.(paused := true)
      case Resume => Unpark(w)
      case Abort => if w.aborted then w else Unpark(w.(aborted := true))
  }

  function Unpark(w: Worker): Worker {
    w.(paused := false, phase := if w.phase.Parked? then Ready(w.phase.held) else w.phase)
  }

  function Begin(w: Worker, fnThrows: Option<Failure>): Worker {
    if fnThrows.Some? then Post(w, ErrorFrame(fnThrows.value), Finished) else w.(phase := Pulling)
  }

  function OnGen(w: Worker, g: GenStep): Worker {
    match g
    case Yields(v) =>
      w.(produced := w.produced + [v],
         phase := if w.aborted then Closing else if w.paused then Parked(v) else Ready(v))
    case Returns => Post(w, EndFrame(w.aborted), Finished)
    case Throws(e) => if w.aborted then w.(phase := Finished) else Post(w, ErrorFrame(e), Finished)
  }

  function OnWake(w: Worker): Worker
    requires w.phase.Ready?
  {
    if w.aborted then w.(phase := Closing)
    else Post(w, ChunkFrame(w.seqNo, w.phase.held), Pulling).(seqNo := w.seqNo + 1)
  }

  function Step(w: Worker, i: Input): Worker {
    match i
    case Start(t) => if w.phase.Loading? then Begin(w, t) else w
    case LoadFails => if w.phase.Loading? then w.(phase := Finished) else w
    case Ctl(c) => Handle(w, c)
    case Gen(g) => if w.phase.Pulling? then OnGen(w, g) else w
    case Wake => if w.phase.Ready? then OnWake(w) else w
    case Closed => if w.phase.Closing? then Post(w, EndFrame(true), Finished) else w
  }

  function Run(w: Worker, inputs: seq<Input>): Worker
    decreases |inputs|
  {
    if inputs == [] then w else Run(Step(w, inputs[0]), inputs[1..])
  }

  // ---- Frame discipline ----

  /** The frames that carry `chunks`, numbered from 0. */
  function Numbered(chunks: seq<Chunk>): seq<Frame> {
    seq(|chunks|, i requires 0 <= i < |chunks| => ChunkFrame(i, chunks[i]))
  }

  predicate Terminal(f: Frame) { !f.ChunkFrame? }

  /**
   * `n` is the number of chunks posted: the first `n` yields, in order, and
   * after them at most one closing frame, present only when the run is over.
   */
  ghost predicate Inv(w: Worker) {
    && w.seqNo <= |w.produced| <= w.seqNo + 1
    && (w.posted == Numbered(w.produced[..w.seqNo])
        || (w.phase.Finished?
            && |w.posted| == w.seqNo + 1
            && w.posted[..w.seqNo] == Numbered(w.produced[..w.seqNo])
            && Terminal(w.posted[w.seqNo])))
    && (w.phase.Loading? ==> w.produced == [] && !w.paused && !w.aborted)
    && (w.phase.Pulling? ==> w.seqNo == |w.produced|)
    && (w.phase.Parked? || w.phase.Ready? ==> w.produced == w.produced[..w.seqNo] + [w.phase.held])
    && (w.phase.Parked? ==> w.paused && !w.aborted)
    && (w.phase.Closing? ==> w.aborted)
    && (EndFrame(false) in w.posted ==> w.seqNo == |w.produced|)
  }

  lemma NumberedAppend(chunks: seq<Chunk>, c: Chunk)
    ensures Numbered(chunks + [c]) == Numbered(chunks) + [ChunkFrame(|chunks|, c)]
  {
  }

  lemma StepKept(w: Worker, i: Input)
    requires Inv(w)
    ensures Inv(Step(w, i))
  {
    match i
    case Gen(g) =>
      if w.phase.Pulling? && g.Yields? {
        assert (w.produced + [g.value])[..w.seqNo] == w.produced[..w.seqNo] == w.produced;
      }
    case Wake =>
      if w.phase.Ready? && !w.aborted {
        NumberedAppend(w.produced[..w.seqNo], w.phase.held);
        assert w.produced[..w.seqNo + 1] == w.produced;
      }
    case _ =>
  }

  /** Steps only add: to what was produced, to what was posted. */
  lemma StepGrows(w: Worker, i: Input)
    ensures w.posted <= Step(w, i).posted && w.produced <= Step(w, i).produced
    ensures w.seqNo <= Step(w, i).seqNo
    ensures !i.Ctl? ==> Step(w, i).paused == w.paused && Step(w, i).aborted == w.aborted
    ensures i.Ctl? ==> Step(w, i).posted == w.posted && Step(w, i).phase.Loading? == w.phase.Loading?
    ensures Step(w, i).phase.Loading? ==> w.phase.Loading?
  {
  }

  lemma {:induction false} RunKept(w: Worker, inputs: seq<Input>)
    requires Inv(w)
    ensures Inv(Run(w, inputs))
    decreases |inputs|
  {
    if inputs != [] {
      StepKept(w, inputs[0]);
      RunKept(Step(w, inputs[0]), inputs[1..]);
    }
  }

  lemma {:induction false} RunAppend(w: Worker, a: seq<Input>, b: seq<Input>)
    ensures Run(w, a + b) == Run(Run(w, a), b)
    decreases |a|
  {
    if a == [] {
      assert a + b == b;
    } else {
      assert (a + b)[0] == a[0] && (a + b)[1..] == a[1..] + b;
      RunAppend(Step(w, a[0]), a[1..], b);
    }
  }

  lemma Extend(start: Worker, schedule: seq<Input>, pos: nat)
    requires pos < |schedule|
    ensures Run(start, schedule[..pos + 1]) == Step(Run(start, schedule[..pos]), schedule[pos])
  {
    assert schedule[..pos + 1] == schedule[..pos] + [schedule[pos]];
    RunAppend(start, schedule[..pos], [schedule[pos]]);
    assert Run(Run(start, schedule[..pos]), [schedule[pos]]) == Step(Run(start, schedule[..pos]), schedule[pos]);
  }

  /**
   * Every run posts the first n yields as chunks 0..n-1, then at most one
   * closing frame, which is the last frame and is posted only at the end.
   */
  lemma FrameDiscipline(inputs: seq<Input>)
    ensures var w := Run(Idle, inputs); var n := w.seqNo;
      && n <= |w.produced| <= n + 1
      && n <= |w.posted| <= n + 1
      && (forall k :: 0 <= k < n ==> w.posted[k] == ChunkFrame(k, w.produced[k]))
      && (|w.posted| == n + 1 ==> Terminal(w.posted[n]) && w.phase.Finished?)
      && (EndFrame(false) in w.posted ==> n == |w.produced|)
  {
    assert Inv(Idle);
    RunKept(Idle, inputs);
    var w := Run(Idle, inputs);
    assert forall k :: 0 <= k < w.seqNo ==> w.posted[..w.seqNo][k] == w.posted[k];
  }

  /** This event ends the run and says nothing: the load fails, or the generator throws after the abort. */
  predicate Mute(w: Worker, i: Input) {
    || (i.LoadFails? && w.phase.Loading?)
    || (i.Gen? && i.step.Throws? && w.phase.Pulling? && w.aborted)
  }

  /** The step that ends a run posts a closing frame, unless the load fails or the generator throws after the abort. */
  lemma ClosingFrameIff(w: Worker, i: Input)
    requires Inv(w) && !w.phase.Finished? && Step(w, i).phase.Finished?
    ensures (exists f :: Terminal(f) && Step(w, i).posted == w.posted + [f])
            <==> !(i.LoadFails? || (w.aborted && i.Gen? && i.step.Throws?))
  {
    var t := Step(w, i);
    if !(i.LoadFails? || (w.aborted && i.Gen? && i.step.Throws?)) {
      assert Terminal(t.posted[|w.posted|]) && t.posted == w.posted + [t.posted[|w.posted|]];
    } else {
      assert t.posted == w.posted;
    }
  }

  predicate MuteAt(inputs: seq<Input>, k: nat)
    requires k < |inputs|
  {
    Mute(Run(Idle, inputs[..k]), inputs[k])
  }

  /**
   * So over a whole run: it ends without a closing frame if and only if the
   * load failed or the generator threw after the abort.
   */
  lemma {:induction false} SilentEndIff(inputs: seq<Input>)
    requires Run(Idle, inputs).phase.Finished?
    ensures var w := Run(Idle, inputs);
      |w.posted| == w.seqNo <==> exists k :: 0 <= k < |inputs| && MuteAt(inputs, k)
    decreases |inputs|
  {
    assert Inv(Idle);
    var n := |inputs| - 1;
    var w := Run(Idle, inputs[..n]);
    Extend(Idle, inputs, n);
    assert inputs[..|inputs|] == inputs;
    RunKept(Idle, inputs[..n]);
    MutePush(inputs);
    if w.phase.Finished? {
      SilentEndIff(inputs[..n]);
    } else {
      forall k | 0 <= k < n ensures !MuteAt(inputs[..n], k) {
        NotYetMute(inputs[..n], k);
      }
      assert w.posted == Numbered(w.produced[..w.seqNo]) && |w.posted| == w.seqNo;
    }
  }

  lemma MutePush(inputs: seq<Input>)
    requires inputs != []
    ensures var n := |inputs| - 1;
      (exists k :: 0 <= k < |inputs| && MuteAt(inputs, k))
      <==> (exists k :: 0 <= k < n && MuteAt(inputs[..n], k)) || MuteAt(inputs, n)
  {
    var n := |inputs| - 1;
    forall k | 0 <= k < n ensures MuteAt(inputs, k) <==> MuteAt(inputs[..n], k) {
      assert inputs[..n][..k] == inputs[..k];
    }
  }

  /** Such an event finishes the run. */
  lemma NotYetMute(inputs: seq<Input>, k: nat)
    requires k < |inputs| && !Run(Idle, inputs).phase.Finished?
    ensures !MuteAt(inputs, k)
  {
    if MuteAt(inputs, k) {
      Extend(Idle, inputs, k);
      assert inputs == inputs[..k + 1] + inputs[k + 1..];
      RunAppend(Idle, inputs[..k + 1], inputs[k + 1..]);
      FinishedForGood(Run(Idle, inputs[..k + 1]), inputs[k + 1..]);
    }
  }

  /** A finished run is over: no later event changes anything. */
  lemma {:induction false} FinishedForGood(w: Worker, inputs: seq<Input>)
    requires w.phase.Finished?
    ensures Run(w, inputs) == w
    decreases |inputs|
  {
    if inputs != [] {
      FinishedForGood(w, inputs[1..]);
    }
  }

  /** After the abort flag is set no further chunk is posted. */
  lemma {:induction false} NoChunkAfterAbort(w: Worker, inputs: seq<Input>)
    requires w.aborted
    ensures Run(w, inputs).aborted && Run(w, inputs).seqNo == w.seqNo
    decreases |inputs|
  {
    if inputs != [] {
      NoChunkAfterAbort(Step(w, inputs[0]), inputs[1..]);
    }
  }

  /** While the pause flag stays set at most the one chunk already cleared for posting goes out. */
  lemma {:induction false} OneChunkPerPause(w: Worker, inputs: seq<Input>)
    requires w.paused && Inv(w)
    requires Ctl(Resume) !in inputs && Ctl(Abort) !in inputs
    ensures Run(w, inputs).seqNo <= w.seqNo + (if w.phase.Ready? then 1 else 0)
    decreases |inputs|
  {
    if inputs != [] {
      StepKept(w, inputs[0]);
      OneChunkPerPause(Step(w, inputs[0]), inputs[1..]);
    }
  }

  // ---- The imperative code ----

  /** `createPauseController()`: a flag and the resolvers of the parked promises. */
  class PauseController {
    var paused: bool
    var waiters: seq<nat>
    ghost var woken: nat

    constructor ()
      ensures !paused && waiters == [] && woken == 0
    {
      paused, waiters, woken := false, [], 0;
    }

    method SetPaused()
      modifies this
      ensures paused && waiters == old(waiters) && woken == old(woken)
    {
      paused := true;
    }

    /** Wakes every waiter exactly once. */
    method Unpause()
      modifies this
      ensures !paused && waiters == [] && woken == old(woken) + |old(waiters)|
    {
      paused := false;
      var drained := waiters;
      waiters := [];
      for i := 0 to |drained|
        invariant !paused && waiters == [] && woken == old(woken) + i
        modifies `woken
      {
        woken := woken + 1;
      }
    }

    /** Parks the caller while paused; otherwise its promise is resolved at once. */
    method WaitWhilePaused(id: nat)
      modifies this
      ensures paused == old(paused) && woken == old(woken)
      ensures waiters == (if old(paused) then old(waiters) + [id] else old(waiters))
    {
      if !paused {
        return;
      }
      waiters := waiters + [id];
    }
  }

  datatype Until = ForGen | ForWake | ForClosed

  predicate Ends(until: Until, i: Input, parked: bool) {
    match until
    case ForGen => i.Gen?
    case ForWake => i.Wake? && !parked
    case ForClosed => i.Closed?
  }

  /** The machine stands where the loop stands. */
  ghost predicate Linked(w: Worker, pc: PauseController, aborted: bool, until: Until)
    reads pc
  {
    && w.paused == pc.paused && w.aborted == aborted
    && match until
       case ForGen => w.phase.Pulling? && pc.waiters == []
       case ForWake => if pc.waiters == [] then w.phase.Ready? else w.phase.Parked?
       case ForClosed => w.phase.Closing? && pc.waiters == []
  }

  /**
   * One await: control messages are handled as they come until the awaited
   * event arrives (`got`) or the schedule is over. `w` is the machine just
   * before the awaited event.
   */
  method Await(pc: PauseController, schedule: seq<Input>, from: nat, abortedIn: bool, until: Until,
               ghost start: Worker, ghost w0: Worker)
    returns (pos: nat, aborted: bool, got: Option<Input>, ghost w: Worker)
    requires from <= |schedule| && w0 == Run(start, schedule[..from]) && Linked(w0, pc, abortedIn, until)
    modifies pc
    ensures from <= pos <= |schedule|
    ensures Linked(w, pc, aborted, until) && (abortedIn ==> aborted)
    ensures w.seqNo == w0.seqNo && w.posted == w0.posted
    ensures w0.phase.Parked? || w0.phase.Ready? ==> w.phase.held == w0.phase.held
    ensures got.None? ==> pos == |schedule| && w == Run(start, schedule[..pos])
    ensures got.Some? ==> pos > from && Ends(until, got.value, pc.waiters != [])
                          && Step(w, got.value) == Run(start, schedule[..pos])
  {
    pos, aborted, got, w := from, abortedIn, None, w0;
    while pos < |schedule|
      invariant from <= pos <= |schedule|
      invariant Linked(w, pc, aborted, until) && (abortedIn ==> aborted)
      invariant w.seqNo == w0.seqNo && w.posted == w0.posted
      invariant w0.phase.Parked? || w0.phase.Ready? ==> w.phase.held == w0.phase.held
      invariant w == Run(start, schedule[..pos])
    {
      var i := schedule[pos];
      Extend(start, schedule, pos);
      if Ends(until, i, pc.waiters != []) {
        pos, got := pos + 1, Some(i);
        return;
      }
      if i.Ctl? {
        match i.control
        case Pause => pc.SetPaused();
        case Resume => pc.Unpause();
        case Abort =>
          if !aborted {
            aborted := true;
            pc.Unpause();
          }
      }
      pos, w := pos + 1, Step(w, i);
    }
  }

  /** Where the loop stands after a step of the generator. */
  function AfterYield(v: Chunk, aborted: bool, paused: bool): Phase {
    if aborted then Closing else if paused then Parked(v) else Ready(v)
  }

  /** The closing frame, if any, for a run that stopped at `step`. */
  function Ending(step: GenStep, aborted: bool): seq<Frame> {
    if step.Throws? then (if aborted then [] else [ErrorFrame(step.error)]) else [EndFrame(aborted)]
  }

  /** The end of `runStream` after its loop, and its `catch`. */
  method CloseRun(step: GenStep, aborted: bool) returns (posted: seq<Frame>)
    ensures posted == Ending(step, aborted)
  {
    if step.Throws? {
      return if aborted then [] else [ErrorFrame(step.error)];
    }
    if !aborted {
      return [EndFrame(false)];
    }
    return [EndFrame(true)];
  }

  /** How a turn of the loop ends: the schedule is over, the loop is left, or the generator took its next step. */
  datatype Turn = Cut | Broken | Stepped(step: GenStep)

  /** `await gen.return()` of an aborted run, after which the loop is left. */
  method ReturnGenerator(pc: PauseController, schedule: seq<Input>, from: nat, abortedIn: bool,
                         ghost start: Worker, ghost w0: Worker)
    returns (turn: Turn, used: nat, aborted: bool, ghost w: Worker)
    requires from <= |schedule| && w0 == Run(start, schedule[..from])
    requires Linked(w0, pc, abortedIn, ForClosed) && abortedIn
    modifies pc
    ensures from <= used <= |schedule| && w == Run(start, schedule[..used])
    ensures turn.Cut? ==> used == |schedule| && w.posted == w0.posted
    ensures !turn.Cut? ==> turn.Broken? && aborted && w.phase.Finished? && w.posted == w0.posted + [EndFrame(true)]
  {
    var got: Option<Input>;
    used, aborted, got, w := Await(pc, schedule, from, abortedIn, ForClosed, start, w0);
    if got.None? {
      return Cut, used, aborted, w;
    }
    turn, w := Broken, Step(w, got.value);
  }

  /** One turn of the loop: the two abort checks around the pause, the chunk, and the next step. */
  method TakeTurn(pc: PauseController, schedule: seq<Input>, from: nat, abortedIn: bool, seqNo: nat, value: Chunk,
                  ghost start: Worker, ghost w0: Worker)
    returns (turn: Turn, posted: seq<Frame>, used: nat, aborted: bool, ghost w: Worker)
    requires from <= |schedule| && w0 == Run(start, schedule[..from]) && pc.waiters == [] && w0.seqNo == seqNo
    requires w0.aborted == abortedIn && w0.paused == pc.paused && w0.phase == AfterYield(value, abortedIn, pc.paused)
    modifies pc
    ensures from <= used <= |schedule| && w == Run(start, schedule[..used])
    ensures turn.Cut? ==> used == |schedule| && w.posted == w0.posted + posted
    ensures turn.Broken? ==> aborted && posted == [] && w.phase.Finished? && w.posted == w0.posted + [EndFrame(true)]
    ensures turn.Stepped? ==>
              used > from && posted == [ChunkFrame(seqNo, value)] && TurnDone(w0, w, turn.step, aborted, pc, posted)
  {
    posted := [];
    if abortedIn {
      turn, used, aborted, w := ReturnGenerator(pc, schedule, from, abortedIn, start, w0);
      return;
    }
    pc.WaitWhilePaused(0);
    var got: Option<Input>;
    used, aborted, got, w := Await(pc, schedule, from, abortedIn, ForWake, start, w0);
    if got.None? {
      turn := Cut;
      return;
    }
    w := Step(w, got.value);
    if aborted {
      turn, used, aborted, w := ReturnGenerator(pc, schedule, used, aborted, start, w);
      return;
    }
    posted := [ChunkFrame(seqNo, value)];
    used, aborted, got, w := Await(pc, schedule, used, aborted, ForGen, start, w);
    if got.None? {
      turn := Cut;
      return;
    }
    assert w.posted + [] == w.posted == w0.posted + posted;
    turn, w := Stepped(got.value.step), Step(w, got.value);
  }

  /** After a turn that went through, the machine stands before the next one, or is finished. */
  ghost predicate TurnDone(w0: Worker, w: Worker, step: GenStep, aborted: bool, pc: PauseController, posted: seq<Frame>)
    reads pc
  {
    && pc.waiters == [] && w.seqNo == w0.seqNo + 1 && w.aborted == aborted
    && if step.Yields?
       then w.paused == pc.paused && w.posted == w0.posted + posted
            && w.phase == AfterYield(step.value, aborted, pc.paused)
       else w.phase.Finished? && w.posted == w0.posted + posted + Ending(step, aborted)
  }

  /**
   * `runStream`: the loop of the source, with `schedule` as everything that
   * happens at its awaits. It posts what the machine posts on the part of the
   * schedule it used, and stops early only when the run is over.
   */
  method RunStream(fnThrows: Option<Failure>, signalAborted: bool, schedule: seq<Input>)
    returns (posted: seq<Frame>, used: nat)
    ensures used <= |schedule|
    ensures fnThrows.Some? ==> posted == [ErrorFrame(fnThrows.value)]
    ensures fnThrows.None? && signalAborted ==> posted == [EndFrame(true)]
    ensures fnThrows.None? && !signalAborted ==>
              var w := Run(Begin(Idle, None), schedule[..used]);
              posted == w.posted && (used < |schedule| ==> w.phase.Finished?)
  {
    posted, used := [], 0;
    if fnThrows.Some? {
      return [ErrorFrame(fnThrows.value)], 0;
    }
    if signalAborted {
      return [EndFrame(true)], 0;
    }
    var pc := new PauseController();
    var aborted, seqNo := false, 0;
    var got: Option<Input>;
    ghost var start := Begin(Idle, None);
    ghost var w := start;
    used, aborted, got, w := Await(pc, schedule, 0, aborted, ForGen, start, w);
    if got.None? {
      return;
    }
    var step := got.value.step;
    w := Step(w, got.value);
    while step.Yields?
      invariant 0 < used <= |schedule|
      invariant w == Run(start, schedule[..used])
      invariant pc.waiters == [] && w.seqNo == seqNo && w.aborted == aborted
      invariant step.Yields? ==> w.paused == pc.paused && posted == w.posted
                                 && w.phase == AfterYield(step.value, aborted, pc.paused)
      invariant !step.Yields? ==> w.phase.Finished? && w.posted == posted + Ending(step, aborted)
      decreases |schedule| - used
    {
      var turn, more;
      turn, more, used, aborted, w := TakeTurn(pc, schedule, used, aborted, seqNo, step.value, start, w);
      posted := posted + more;
      match turn
      case Cut => return;
      case Broken => break;
      case Stepped(next) => step, seqNo := next, seqNo + 1;
    }
    var closing := CloseRun(step, aborted);
    posted := posted + closing;
  }
}
