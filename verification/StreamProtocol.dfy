/**
 * Stream and worker together: frames travel one way, control messages the
 * other, each in FIFO order, and every message is handled at some later step.
 *
 * The wiring is the documented one: `paused` posts PAUSE, `resumed` posts
 * RESUME, `stream:aborted` posts ABORT, each only while the worker handle
 * still has the stream in its slot (src/worker-handle.js), and an END frame
 * becomes `pushEnd` or `pushAbortEnd` by its `aborted` flag.
 */
module StreamProtocol {
  import opened Prelude
  import S = Streams
  import W = StreamRunner

  datatype Net = Net(stream: S.State, slot: bool, control: seq<W.Control>, frames: seq<W.Frame>, worker: W.Worker)

  datatype Move =
    | Pull
    | ConsumerReturn
    | ConsumerThrow(error: S.Failure)
    | SignalAbort
    | ReceiveFrame
    | ReceiveControl
    | WorkerMoves(input: W.Input)

  /**
   * The stream when it is handed to its worker. If its signal was aborted
   * before, it announced that when nobody listened yet.
   */
  function Initial(hwm: nat, signalAborted: bool): Net {
    Net(S.Init(hwm, signalAborted), true, [], [], W.Idle)
  }

  /** The control messages that the events of a stream stand for. */
  function Messages(events: seq<S.Event>): seq<W.Control> {
    if events == [] then []
    else
      var last := events[|events| - 1];
      Messages(events[..|events| - 1])
      + (match last
         case Paused => [W.Pause]
         case Resumed => [W.Resume]
         case Aborted => [W.Abort]
         case _ => [])
  }

  /** The stream takes a step; what it emits is posted to the worker while the slot is held. */
  function Emit(n: Net, op: S.Op): Net {
    var t := S.Apply(n.stream, op);
    var news := if |n.stream.events| <= |t.events| then t.events[|n.stream.events|..] else [];
    n.(stream := t, control := if n.slot then n.control + Messages(news) else n.control)
  }

  /** The worker handle routes one frame; a closing frame frees the slot before the stream hears of it. */
  function Deliver(n: Net): Net
    requires n.frames != []
  {
    var f, m := n.frames[0], n.(frames := n.frames[1..]);
    if !n.slot then m
    else match f
      case ChunkFrame(_, c) => Emit(m, S.OpPushChunk(c))
      case EndFrame(wasAborted) => Emit(m.(slot := false), if wasAborted then S.OpPushAbortEnd else S.OpPushEnd)
      case ErrorFrame(e) => Emit(m.(slot := false), S.OpPushError(e))
  }

  function WorkerStep(n: Net, i: W.Input): Net {
    var w := W.Step(n.worker, i);
    var news := if |n.worker.posted| <= |w.posted| then w.posted[|n.worker.posted|..] else [];
    n.(worker := w, frames := n.frames + news)
  }

  function Step(n: Net, m: Move): Net {
    match m
    case Pull => Emit(n, S.OpNext)
    case ConsumerReturn => Emit(n, S.OpReturn)
    case ConsumerThrow(e) => Emit(n, S.OpThrow(e))
    case SignalAbort => Emit(n, S.OpSignalAbort)
    case ReceiveFrame => if n.frames == [] then n else Deliver(n)
    case ReceiveControl =>
      if n.control == [] then n
      else WorkerStep(n.(control := n.control[1..]), W.Ctl(n.control[0]))
    case WorkerMoves(i) => if i.Ctl? then n else WorkerStep(n, i)
  }

  function Run(n: Net, moves: seq<Move>): Net
    decreases |moves|
  {
    if moves == [] then n else Run(Step(n, moves[0]), moves[1..])
  }

  // ---- The invariant ----

  /** The number of frames the main thread has taken, and of chunks among them. */
  function Taken(n: Net): int { |n.worker.posted| - |n.frames| }

  function Got(n: Net): int { if Taken(n) <= n.worker.seqNo then Taken(n) else n.worker.seqNo }

  ghost predicate ChannelInv(n: Net) {
    && 0 <= Taken(n)
    && n.frames == n.worker.posted[Taken(n)..]
    && (n.slot <==> Taken(n) <= n.worker.seqNo)
  }

  ghost predicate DataInv(n: Net)
    requires ChannelInv(n) && W.Inv(n.worker)
  {
    && (!n.stream.settled ==> n.stream.accepted == n.worker.produced[..Got(n)])
    && n.stream.accepted <= n.worker.produced[..Got(n)]
    && (n.stream.endPushed ==> n.stream.accepted == n.worker.produced && n.worker.phase.Finished?)
  }

  /** The pause flag once every control message on its way has been handled. */
  function FlagAfter(paused: bool, control: seq<W.Control>): bool {
    if control == [] then paused else control[|control| - 1] == W.Pause
  }

  ghost predicate NoPauseAfterAbort(control: seq<W.Control>) {
    forall i, j :: 0 <= i < j < |control| && control[i] == W.Abort ==> control[j] != W.Pause
  }

  ghost predicate ControlInv(n: Net) {
    var s, w := n.stream, n.worker;
    && (w.phase.Loading? ==> s.accepted == [] && !s.backpressured && W.Pause !in n.control)
    && (w.aborted || W.Abort in n.control ==> s.aborted)
    && NoPauseAfterAbort(n.control)
    && (W.Registered(w) && w.aborted ==> !w.paused && W.Pause !in n.control)
    && (W.Registered(w) && !w.aborted && W.Abort !in n.control ==>
          && FlagAfter(w.paused, n.control) == s.backpressured
          && (S.Count(s.events, S.Aborted) > 0 ==> s.accepted == [] && !s.backpressured))
  }

  ghost predicate Inv(n: Net) {
    S.Inv(n.stream) && W.Inv(n.worker) && ChannelInv(n) && DataInv(n) && ControlInv(n)
  }

  lemma MessagesOfNews(s: S.State, t: S.State, news: seq<S.Event>)
    requires S.NewsOf(s, t, news)
    ensures Messages(news) == (if news == [S.Paused] then [W.Pause]
                               else if news == [S.Resumed] then [W.Resume]
                               else if news == [S.Aborted] then [W.Abort] else [])
  {
    if |news| == 1 {
      assert news[..0] == [];
    }
  }

  /** What control needs to know of one stream step from `s` to `t`. */
  ghost predicate Quiet(s: S.State, t: S.State, w: W.Worker) {
    && (s.aborted ==> s.settled && t.aborted)
    && (S.Count(s.events, S.Aborted) > 0 ==> s.aborted)
    && (s.settled || w.phase.Loading? ==> t.accepted == s.accepted)
  }

  lemma EmitOne(n: Net, t: S.State, c: W.Control)
    requires ControlInv(n) && Quiet(n.stream, t, n.worker)
    requires c == W.Pause ==> !n.stream.settled && !n.worker.phase.Loading?
    requires c != W.Abort ==> S.Count(t.events, S.Aborted) == S.Count(n.stream.events, S.Aborted)
                              && t.backpressured == (c == W.Pause)
    requires c == W.Abort ==> t.aborted && !n.stream.aborted && t.backpressured == n.stream.backpressured
    ensures ControlInv(n.(stream := t, control := n.control + [c]))
  {
  }

  /** Control side of one stream step, seen only through what it emits and accepts. */
  lemma EmitControl(n: Net, t: S.State, news: seq<S.Event>, m: Net)
    requires ControlInv(n) && Quiet(n.stream, t, n.worker)
    requires S.NewsOf(n.stream, t, news)
    requires n.slot || n.worker.phase.Finished?
    requires m == n.(stream := t, control := if n.slot then n.control + Messages(news) else n.control)
    ensures ControlInv(m)
  {
    MessagesOfNews(n.stream, t, news);
    NewsCount(n.stream, t, news);
    if n.slot && Messages(news) == [] {
      assert n.control + [] == n.control;
    } else if n.slot {
      EmitOne(n, t, Messages(news)[0]);
    }
  }

  lemma NewsCount(s: S.State, t: S.State, news: seq<S.Event>)
    requires S.NewsOf(s, t, news)
    ensures S.Count(t.events, S.Aborted) == S.Count(s.events, S.Aborted) + (if news == [S.Aborted] then 1 else 0)
  {
    if news == [] {
      assert s.events + [] == s.events;
    } else {
      S.EventAppend(s.events, news[0]);
      assert news == [news[0]];
    }
  }

  lemma EmitKept(n: Net, op: S.Op)
    requires S.Inv(n.stream) && ControlInv(n)
    requires n.slot || n.worker.phase.Finished?
    requires op.OpPushChunk? ==> !n.worker.phase.Loading?
    ensures S.Inv(Emit(n, op).stream) && ControlInv(Emit(n, op))
    ensures S.AcceptsOf(n.stream, Emit(n, op).stream, op)
  {
    var news := S.StepEmits(n.stream, op);
    S.StepKept(n.stream, op);
    S.StepAccepts(n.stream, op);
    EmitControl(n, S.Apply(n.stream, op), news, Emit(n, op));
  }

  /** Data side of a stream step that accepts nothing. */
  lemma SameData(n: Net, m: Net)
    requires W.Inv(n.worker) && ChannelInv(n) && DataInv(n)
    requires m.worker == n.worker && m.frames == n.frames && m.slot == n.slot
    requires m.stream.accepted == n.stream.accepted && (n.stream.settled ==> m.stream.settled)
    requires m.stream.endPushed == n.stream.endPushed
    ensures ChannelInv(m) && DataInv(m)
  {
    assert Got(m) == Got(n);
  }

  lemma ConsumerKept(n: Net, op: S.Op)
    requires Inv(n) && (op.OpNext? || op.OpReturn? || op.OpThrow? || op.OpSignalAbort?)
    ensures Inv(Emit(n, op))
  {
    SlotOrFinished(n);
    EmitKept(n, op);
    SameData(n, Emit(n, op));
  }

  lemma SlotOrFinished(n: Net)
    requires W.Inv(n.worker) && ChannelInv(n)
    ensures n.slot || n.worker.phase.Finished?
    ensures n.frames != [] ==> n.slot && !n.worker.phase.Loading? && n.frames[0] == n.worker.posted[Taken(n)]
    ensures n.frames != [] && n.frames[0].ChunkFrame? ==>
              Taken(n) < n.worker.seqNo && n.frames[0].chunk == n.worker.produced[Taken(n)]
    ensures n.frames != [] && !n.frames[0].ChunkFrame? ==> Taken(n) == n.worker.seqNo && n.worker.phase.Finished?
  {
    var w := n.worker;
    assert forall k :: 0 <= k < w.seqNo ==> w.posted[..w.seqNo][k] == w.posted[k];
  }

  /** Data side of taking one chunk frame. */
  lemma ChunkData(n: Net, m: Net)
    requires W.Inv(n.worker) && ChannelInv(n) && DataInv(n) && n.frames != [] && n.frames[0].ChunkFrame?
    requires m.worker == n.worker && m.frames == n.frames[1..] && m.slot == n.slot
    requires m.stream.accepted == n.stream.accepted + (if n.stream.settled then [] else [n.frames[0].chunk])
    requires m.stream.settled == n.stream.settled && m.stream.endPushed == n.stream.endPushed
    requires n.stream.endPushed ==> n.stream.settled
    ensures ChannelInv(m) && DataInv(m)
  {
    SlotOrFinished(n);
    var k := Taken(n);
    assert Got(n) == k && Got(m) == k + 1;
    assert n.worker.produced[..k + 1] == n.worker.produced[..k] + [n.worker.produced[k]];
  }

  lemma ChunkKept(n: Net)
    requires Inv(n) && n.frames != [] && n.frames[0].ChunkFrame?
    ensures Inv(Deliver(n))
  {
    SlotOrFinished(n);
    EmitKept(n.(frames := n.frames[1..]), S.OpPushChunk(n.frames[0].chunk));
    ChunkData(n, Deliver(n));
  }

  /** Data side of taking the closing frame. */
  lemma ClosingData(n: Net, m: Net)
    requires W.Inv(n.worker) && ChannelInv(n) && DataInv(n) && n.frames != [] && !n.frames[0].ChunkFrame?
    requires m.worker == n.worker && m.frames == n.frames[1..] && !m.slot
    requires m.stream.accepted == n.stream.accepted && (n.stream.settled ==> m.stream.settled)
    requires m.stream.endPushed ==> n.stream.endPushed || (n.frames[0] == W.EndFrame(false) && !n.stream.settled)
    ensures ChannelInv(m) && DataInv(m)
  {
    SlotOrFinished(n);
    assert Got(n) == Got(m) == n.worker.seqNo;
    assert n.worker.posted[Taken(n)] == n.frames[0];
    if n.frames[0] == W.EndFrame(false) {
      assert n.worker.produced[..n.worker.seqNo] == n.worker.produced;
    }
  }

  lemma ClosingKept(n: Net)
    requires Inv(n) && n.frames != [] && !n.frames[0].ChunkFrame?
    ensures Inv(Deliver(n))
  {
    SlotOrFinished(n);
    var m := n.(frames := n.frames[1..], slot := false);
    var f := n.frames[0];
    var op := if f.ErrorFrame? then S.OpPushError(f.error)
              else if f.wasAborted then S.OpPushAbortEnd else S.OpPushEnd;
    EmitKept(m, op);
    ClosingData(n, Emit(m, op));
  }

  /** Channel and data side of a step of the worker to `w`. */
  lemma WorkerGrows(n: Net, w: W.Worker, t: Net)
    requires W.Inv(n.worker) && W.Inv(w) && ChannelInv(n) && DataInv(n)
    requires n.worker.posted <= w.posted && n.worker.produced <= w.produced && n.worker.seqNo <= w.seqNo
    requires n.worker.phase.Finished? ==> w == n.worker
    requires t == n.(worker := w, frames := n.frames + w.posted[|n.worker.posted|..])
    ensures ChannelInv(t) && DataInv(t)
  {
    SlotOrFinished(n);
    assert Taken(t) == Taken(n) && Got(t) == Got(n);
    TailGrows(n.worker.posted, w.posted, Taken(n));
    PrefixKept(n.worker.produced, w.produced, Got(n));
  }

  lemma TailGrows(a: seq<W.Frame>, b: seq<W.Frame>, k: nat)
    requires a <= b && k <= |a|
    ensures a[k..] + b[|a|..] == b[k..]
  {
  }

  lemma PrefixKept(a: seq<S.Chunk>, b: seq<S.Chunk>, k: nat)
    requires a <= b && k <= |a|
    ensures a[..k] == b[..k] && a[..k] <= b
  {
  }

  lemma WorkerData(n: Net, i: W.Input)
    requires W.Inv(n.worker) && ChannelInv(n) && DataInv(n)
    ensures W.Inv(W.Step(n.worker, i))
    ensures ChannelInv(WorkerStep(n, i)) && DataInv(WorkerStep(n, i))
  {
    W.StepKept(n.worker, i);
    W.StepGrows(n.worker, i);
    WorkerGrows(n, W.Step(n.worker, i), WorkerStep(n, i));
  }

  lemma WorkerControl(n: Net, i: W.Input)
    requires ControlInv(n) && W.Inv(n.worker) && !i.Ctl?
    ensures ControlInv(WorkerStep(n, i))
  {
    W.StepGrows(n.worker, i);
  }

  lemma ReceiveControlKept(n: Net)
    requires ControlInv(n) && W.Inv(n.worker) && n.control != []
    ensures ControlInv(WorkerStep(n.(control := n.control[1..]), W.Ctl(n.control[0])))
  {
    W.StepGrows(n.worker, W.Ctl(n.control[0]));
    var rest := n.control[1..];
    assert n.control == [n.control[0]] + rest;
  }

  lemma FrameKept(n: Net)
    requires Inv(n) && n.frames != []
    ensures Inv(Deliver(n))
  {
    if n.frames[0].ChunkFrame? {
      ChunkKept(n);
    } else {
      ClosingKept(n);
    }
  }

  lemma WorkerKept(n: Net, i: W.Input)
    requires Inv(n) && !i.Ctl?
    ensures Inv(WorkerStep(n, i))
  {
    WorkerControl(n, i);
    WorkerData(n, i);
  }

  lemma ControlKept(n: Net)
    requires Inv(n) && n.control != []
    ensures Inv(WorkerStep(n.(control := n.control[1..]), W.Ctl(n.control[0])))
  {
    ReceiveControlKept(n);
    SameData(n, n.(control := n.control[1..]));
    WorkerData(n.(control := n.control[1..]), W.Ctl(n.control[0]));
  }

  lemma StepKept(n: Net, m: Move)
    requires Inv(n)
    ensures Inv(Step(n, m))
  {
    match m
    case Pull => ConsumerKept(n, S.OpNext);
    case ConsumerReturn => ConsumerKept(n, S.OpReturn);
    case ConsumerThrow(e) => ConsumerKept(n, S.OpThrow(e));
    case SignalAbort => ConsumerKept(n, S.OpSignalAbort);
    case ReceiveFrame => if n.frames != [] { FrameKept(n); }
    case ReceiveControl => if n.control != [] { ControlKept(n); }
    case WorkerMoves(i) => if !i.Ctl? { WorkerKept(n, i); }
  }

  // ---- Whole runs ----

  /** The state after `moves` from a stream just made. */
  function After(hwm: nat, signalAborted: bool, moves: seq<Move>): Net {
    Run(Initial(hwm, signalAborted), moves)
  }

  lemma RunStep(n: Net, moves: seq<Move>)
    requires moves != []
    ensures Run(n, moves) == Run(Step(n, moves[0]), moves[1..])
  {
  }

  lemma {:induction false} RunKept(n: Net, moves: seq<Move>)
    requires Inv(n)
    ensures Inv(Run(n, moves))
    decreases |moves|
  {
    if moves != [] {
      StepKept(n, moves[0]);
      RunKept(Step(n, moves[0]), moves[1..]);
      RunStep(n, moves);
    }
  }

  lemma HwmKept(n: Net, m: Move)
    ensures Step(n, m).stream.hwm == n.stream.hwm
  {
    var op := match m
      case Pull => S.OpNext
      case ConsumerReturn => S.OpReturn
      case ConsumerThrow(e) => S.OpThrow(e)
      case SignalAbort => S.OpSignalAbort
      case _ => if n.frames == [] then S.OpNext
                else match n.frames[0]
                  case ChunkFrame(_, c) => S.OpPushChunk(c)
                  case EndFrame(wasAborted) => if wasAborted then S.OpPushAbortEnd else S.OpPushEnd
                  case ErrorFrame(e) => S.OpPushError(e);
    S.StepHwm(n.stream, op);
  }

  lemma InitialKept(hwm: nat, signalAborted: bool)
    requires hwm >= 1
    ensures Inv(Initial(hwm, signalAborted))
  {
    S.InitInv(hwm, signalAborted);
    assert ControlInv(Initial(hwm, signalAborted)) by {
      assert S.Init(hwm, signalAborted).accepted == [] && !S.Init(hwm, signalAborted).backpressured;
    }
  }

  lemma {:induction false} Reached(hwm: nat, signalAborted: bool, moves: seq<Move>)
    requires hwm >= 1
    ensures Inv(Run(Initial(hwm, signalAborted), moves)) && Run(Initial(hwm, signalAborted), moves).stream.hwm == hwm
  {
    InitialKept(hwm, signalAborted);
    RunKept(Initial(hwm, signalAborted), moves);
    RunHwm(Initial(hwm, signalAborted), moves);
  }

  lemma {:induction false} RunHwm(n: Net, moves: seq<Move>)
    ensures Run(n, moves).stream.hwm == n.stream.hwm
    decreases |moves|
  {
    if moves != [] {
      HwmKept(n, moves[0]);
      RunHwm(Step(n, moves[0]), moves[1..]);
      RunStep(n, moves);
    }
  }

  /**
   * A parked worker with no control message on the way is parked for a
   * reason: the stream is backpressured, still holds at least the low-water
   * mark, and no abort was ever announced.
   */
  lemma ParkedMeansFull(hwm: nat, signalAborted: bool, moves: seq<Move>)
    requires hwm >= 1
    ensures var n := After(hwm, signalAborted, moves);
      n.worker.phase.Parked? && n.control == [] ==>
        && n.stream.backpressured
        && |n.stream.buffered| >= hwm / 2
        && S.Count(n.stream.events, S.Aborted) == 0
  {
    Reached(hwm, signalAborted, moves);
  }

  /** What the consumer was given is a prefix of what the generator yielded; a normal end comes after all of it. */
  lemma DeliveredIsPrefix(hwm: nat, signalAborted: bool, moves: seq<Move>)
    requires hwm >= 1
    ensures var n := After(hwm, signalAborted, moves);
      && S.Delivered(n.stream.replies) + n.stream.buffered <= n.worker.produced
      && (n.stream.endPushed ==> S.Delivered(n.stream.replies) + n.stream.buffered == n.worker.produced)
      && (n.stream.endPushed && S.TerminalSeen(n.stream.replies) ==>
            S.Delivered(n.stream.replies) == n.worker.produced)
  {
    Reached(hwm, signalAborted, moves);
  }

  /** Nobody can move: the worker waits for RESUME, the consumer for a chunk, and nothing is on the way. */
  predicate Wedged(n: Net) {
    n.worker.phase.Parked? && n.control == [] && n.frames == [] && n.stream.waiting
  }

  lemma {:induction false} RunSnoc(n: Net, moves: seq<Move>, m: Move)
    ensures Run(n, moves + [m]) == Step(Run(n, moves), m)
    decreases |moves|
  {
    var all := moves + [m];
    RunStep(n, all);
    if moves == [] {
      assert all[1..] == [];
    } else {
      assert all[1..] == moves[1..] + [m];
      RunStep(n, moves);
      RunSnoc(Step(n, moves[0]), moves[1..], m);
    }
  }

  function Zeros(j: nat): seq<S.Chunk> {
    seq(j, i => 0)
  }

  /** `j` chunks are buffered, none was pulled, and PAUSE is on the way if the buffer is full. */
  function Filled(hwm: nat, j: nat): Net {
    Net(S.Fresh(hwm).(buffered := Zeros(j), accepted := Zeros(j), backpressured := j == hwm,
                      events := if j == hwm then [S.Paused] else []),
        true, if j == hwm then [W.Pause] else [], [],
        W.Worker(W.Pulling, false, false, j, Zeros(j), W.Numbered(Zeros(j))))
  }

  /** The chunk is on its way. */
  lemma PostOne(hwm: nat, j: nat)
    requires j < hwm
    ensures Step(Step(Filled(hwm, j), WorkerMoves(W.Gen(W.Yields(0)))), WorkerMoves(W.Wake))
         == Filled(hwm, j).(frames := [W.ChunkFrame(j, 0)], worker := Filled(hwm, j + 1).worker)
  {
    var w := Filled(hwm, j).worker;
    assert Zeros(j + 1) == Zeros(j) + [0];
    assert Step(Filled(hwm, j), WorkerMoves(W.Gen(W.Yields(0))))
        == Filled(hwm, j).(worker := w.(produced := Zeros(j + 1), phase := W.Ready(0)));
  }

  lemma TakeOne(hwm: nat, j: nat)
    requires j < hwm
    ensures Deliver(Filled(hwm, j).(frames := [W.ChunkFrame(j, 0)], worker := Filled(hwm, j + 1).worker))
         == Filled(hwm, j + 1)
  {
    var s := Filled(hwm, j).stream;
    var t := S.PushChunk(s, 0);
    assert Zeros(j + 1) == Zeros(j) + [0];
    assert t == Filled(hwm, j + 1).stream;
    var news := t.events[|s.events|..];
    if j + 1 == hwm {
      assert news == [S.Paused];
      MessagesOfNews(s, t, news);
    }
  }

  /** The worker yields chunks until the buffer holds `j` of them. */
  lemma {:induction false} FillRun(hwm: nat, j: nat) returns (moves: seq<Move>)
    requires j <= hwm && hwm >= 1
    ensures Run(Initial(hwm, false), moves) == Filled(hwm, j)
    decreases j
  {
    var n := Initial(hwm, false);
    if j == 0 {
      moves := Then(n, [], WorkerMoves(W.Start(None)));
      assert Filled(hwm, 0) == n.(worker := W.Idle.(phase := W.Pulling));
    } else {
      moves := FillRun(hwm, j - 1);
      moves := Then(n, moves, WorkerMoves(W.Gen(W.Yields(0))));
      moves := Then(n, moves, WorkerMoves(W.Wake));
      PostOne(hwm, j - 1);
      moves := Then(n, moves, ReceiveFrame);
      TakeOne(hwm, j - 1);
    }
  }

  /** The buffer is full and the worker parked on the next chunk. */
  function Stuck(hwm: nat): Net {
    Filled(hwm, hwm).(control := [], worker :=
      W.Worker(W.Parked(0), true, false, hwm, Zeros(hwm) + [0], W.Numbered(Zeros(hwm))))
  }

  lemma ParkingRun(hwm: nat) returns (moves: seq<Move>)
    requires hwm >= 1
    ensures Run(Initial(hwm, false), moves) == Stuck(hwm)
  {
    var n := Initial(hwm, false);
    moves := FillRun(hwm, hwm);
    moves := Then(n, moves, ReceiveControl);
    moves := Then(n, moves, WorkerMoves(W.Gen(W.Yields(0))));
  }

  lemma Then(n: Net, moves: seq<Move>, m: Move) returns (longer: seq<Move>)
    ensures Run(n, longer) == Step(Run(n, moves), m)
  {
    longer := moves + [m];
    RunSnoc(n, moves, m);
  }

  /** The run into the wedge when the high-water mark is 1: two chunks, one PAUSE, two pulls. */
  lemma WedgingRun() returns (moves: seq<Move>)
    ensures Wedged(Run(Initial(1, false), moves))
  {
    var n := Initial(1, false);
    moves := ParkingRun(1);
    var parked := Stuck(1);
    moves := Then(n, moves, Pull);
    EmptyPull(parked);
    var drained := Run(n, moves);
    moves := Then(n, moves, Pull);
    EmptyPull(drained);
  }

  /** A pull that emits nothing posts nothing. */
  lemma EmptyPull(n: Net)
    requires n.stream.hwm == 1
    ensures var t := Step(n, Pull);
      && t.worker == n.worker && t.frames == n.frames && t.control == n.control && t.stream == S.Next(n.stream)
      && t.stream.events == n.stream.events
  {
    assert S.Next(n.stream).events == n.stream.events;
    assert n.control + Messages([]) == n.control;
  }

  /** The protocol can wedge exactly when the high-water mark is 1, unless the stream was aborted from the start. */
  lemma WedgeIff(hwm: nat, signalAborted: bool)
    requires hwm >= 1
    ensures (exists moves :: Wedged(After(hwm, signalAborted, moves))) <==> hwm == 1 && !signalAborted
  {
    if hwm == 1 && !signalAborted {
      var moves := WedgingRun();
      assert Wedged(After(hwm, signalAborted, moves));
    } else {
      forall moves ensures !Wedged(After(hwm, signalAborted, moves)) {
        Reached(hwm, signalAborted, moves);
        if signalAborted {
          RunsForNobody(hwm, moves);
        }
      }
    }
  }

  /** Once wedged, only an abort, a `return()` or a `throw()` of the consumer gets the stream out. */
  lemma WedgedStays(n: Net, m: Move)
    requires Inv(n) && Wedged(n)
    requires m.Pull? || m.ReceiveFrame? || m.ReceiveControl? || m.WorkerMoves?
    ensures Wedged(Step(n, m))
  {
    if m.Pull? {
      assert S.Next(n.stream).events == n.stream.events;
      assert Messages([]) == [];
    } else if m.WorkerMoves? {
      assert WorkerStep(n, m.input).worker == n.worker || m.input.Ctl?;
    }
  }

  function Pulls(k: nat): seq<Move> {
    seq(k, i => Pull)
  }

  /** The worker is parked, nothing is on the way, and the buffer explains why. */
  ghost predicate Held(n: Net) {
    && n.worker.phase.Parked? && n.control == [] && n.slot
    && n.stream.hwm >= 2 && n.stream.backpressured && |n.stream.buffered| >= n.stream.hwm / 2
  }

  lemma PullOnce(n: Net)
    requires Held(n)
    ensures var t := Step(n, Pull);
      && t.worker == n.worker && t.stream.hwm == n.stream.hwm
      && |t.stream.buffered| == |n.stream.buffered| - 1
      && (if |t.stream.buffered| < n.stream.hwm / 2 then t.control == [W.Resume] else Held(t))
  {
    var s := n.stream;
    var t := S.Next(s);
    assert [S.Resumed][..0] == [];
    if |t.buffered| < s.hwm / 2 {
      assert t.events[|s.events|..] == [S.Resumed];
    } else {
      assert t.events[|s.events|..] == [];
    }
  }

  lemma FrontPull(n: Net, k: nat)
    requires k >= 1
    ensures Run(n, Pulls(k) + [ReceiveControl]) == Run(Step(n, Pull), Pulls(k - 1) + [ReceiveControl])
  {
    var moves := Pulls(k) + [ReceiveControl];
    assert moves[0] == Pull && moves[1..] == Pulls(k - 1) + [ReceiveControl];
    RunStep(n, moves);
  }

  lemma Woken(n: Net)
    requires n.worker.phase.Parked? && n.control == [W.Resume]
    ensures var t := Run(n, Pulls(0) + [ReceiveControl]);
      t.worker == n.worker.(paused := false, phase := W.Ready(n.worker.phase.held)) && t.control == []
  {
    RunSnoc(n, Pulls(0), ReceiveControl);
  }

  lemma {:induction false} HeldWakes(n: Net)
    requires Held(n)
    ensures var t := Run(n, Pulls(|n.stream.buffered| - n.stream.hwm / 2 + 1) + [ReceiveControl]);
      t.worker == n.worker.(paused := false, phase := W.Ready(n.worker.phase.held)) && t.control == []
    decreases |n.stream.buffered|
  {
    var k := |n.stream.buffered| - n.stream.hwm / 2 + 1;
    FrontPull(n, k);
    PullOnce(n);
    if k > 1 {
      HeldWakes(Step(n, Pull));
    } else {
      Woken(Step(n, Pull));
    }
  }

  /**
   * In every reachable state with the worker parked and nothing on the way, a
   * consumer that keeps pulling wakes it: with the pull that takes the buffer
   * below the low mark RESUME goes out, and handling it clears the held chunk.
   */
  lemma PullsWake(hwm: nat, signalAborted: bool, moves: seq<Move>)
    requires hwm >= 2
    ensures var n := After(hwm, signalAborted, moves);
      n.worker.phase.Parked? && n.control == [] ==>
        && |n.stream.buffered| >= hwm / 2
        && (var t := Run(n, Pulls(|n.stream.buffered| - hwm / 2 + 1) + [ReceiveControl]);
            t.worker == n.worker.(paused := false, phase := W.Ready(n.worker.phase.held)))
  {
    var n := After(hwm, signalAborted, moves);
    Reached(hwm, signalAborted, moves);
    SlotOrFinished(n);
    if n.worker.phase.Parked? && n.control == [] {
      HeldWakes(n);
    }
  }

  // ---- Aborts that never reach the worker ----

  /** In this move an abort is lost: the consumer throws, or ABORT arrives before the run has begun. */
  predicate LosesAbort(n: Net, m: Move) {
    || (m.ConsumerThrow? && !n.stream.aborted)
    || (m.ReceiveControl? && n.control != [] && n.control[0] == W.Abort && n.worker.phase.Loading?)
  }

  /** Some move of the run has the property, in the state it finds. */
  ghost predicate Happens(n: Net, moves: seq<Move>, p: (Net, Move) -> bool) {
    exists k :: 0 <= k < |moves| && At(n, moves, k, p)
  }

  predicate At(n: Net, moves: seq<Move>, k: nat, p: (Net, Move) -> bool)
    requires k < |moves|
  {
    p(Run(n, moves[..k]), moves[k])
  }

  lemma HappensPush(n: Net, moves: seq<Move>, p: (Net, Move) -> bool)
    requires moves != []
    ensures var last := |moves| - 1;
      Happens(n, moves, p) <==> Happens(n, moves[..last], p) || p(Run(n, moves[..last]), moves[last])
  {
    var last := |moves| - 1;
    assert At(n, moves, last, p) <==> p(Run(n, moves[..last]), moves[last]);
    forall k | 0 <= k < last ensures At(n, moves, k, p) <==> At(n, moves[..last], k, p) {
      assert moves[..last][..k] == moves[..k];
    }
  }

  /** The abort of this run is lost: it came before anybody listened, or a move loses it. */
  ghost predicate Lost(hwm: nat, signalAborted: bool, moves: seq<Move>) {
    signalAborted || Happens(Initial(hwm, signalAborted), moves, LosesAbort)
  }

  ghost predicate OneAbort(control: seq<W.Control>) {
    forall i, j :: 0 <= i < j < |control| && control[i] == W.Abort ==> control[j] != W.Abort
  }

  /** While the worker may still listen, the abort of the stream is lost, on its way, or with the worker. */
  ghost predicate Fate(n: Net, lost: bool) {
    n.slot && !n.worker.phase.Finished? ==>
      && OneAbort(n.control)
      && (lost || W.Abort in n.control || n.worker.aborted <==> n.stream.aborted)
      && (lost ==> W.Abort !in n.control && !n.worker.aborted)
      && (n.worker.aborted ==> W.Abort !in n.control)
  }

  /** One step's events say ABORT exactly when the step aborts the stream without throwing. */
  lemma AbortNews(s: S.State, t: S.State, news: seq<S.Event>, op: S.Op)
    requires S.NewsOf(s, t, news) && S.AbortsOf(s, t, op)
    ensures |Messages(news)| <= 1
    ensures Messages(news) == [W.Abort] <==> t.aborted && !s.aborted && !op.OpThrow?
  {
    MessagesOfNews(s, t, news);
    NewsCount(s, t, news);
  }

  /** So a step posts at most one message, which is ABORT exactly then. */
  lemma AbortPosted(n: Net, op: S.Op) returns (posted: seq<W.Control>)
    requires S.Inv(n.stream) && n.slot
    ensures var m := Emit(n, op);
      && m.control == n.control + posted && |posted| <= 1
      && (n.stream.aborted || op.OpThrow? ==> m.stream.aborted)
      && (posted == [W.Abort] <==> m.stream.aborted && !n.stream.aborted && !op.OpThrow?)
  {
    var s, t := n.stream, S.Apply(n.stream, op);
    var news := S.StepEmits(s, op);
    S.AbortStep(s, op);
    AbortNews(s, t, news, op);
    assert t.events[|s.events|..] == news;
    posted := Messages(news);
  }

  lemma EmitFate(n: Net, op: S.Op, lost: bool)
    requires S.Inv(n.stream) && n.slot && Fate(n, lost)
    ensures Fate(Emit(n, op), lost || (op.OpThrow? && !n.stream.aborted))
  {
    var posted := AbortPosted(n, op);
    if posted == [] {
      assert n.control + posted == n.control;
    } else if !n.worker.phase.Finished? {
      assert posted == [posted[0]];
    }
  }

  lemma ControlFate(n: Net, lost: bool)
    requires W.Inv(n.worker) && n.control != [] && Fate(n, lost)
    ensures Fate(Step(n, ReceiveControl), lost || LosesAbort(n, ReceiveControl))
  {
    assert n.control == [n.control[0]] + n.control[1..];
  }

  lemma FrameFate(n: Net, lost: bool)
    requires S.Inv(n.stream) && n.slot && Fate(n, lost) && n.frames != []
    ensures Fate(Step(n, ReceiveFrame), lost)
  {
    if n.frames[0].ChunkFrame? {
      EmitFate(n.(frames := n.frames[1..]), S.OpPushChunk(n.frames[0].chunk), lost);
    }
  }

  lemma WorkerFate(n: Net, i: W.Input, lost: bool)
    requires Fate(n, lost)
    ensures Fate(Step(n, WorkerMoves(i)), lost)
  {
    W.StepGrows(n.worker, i);
  }

  lemma StepFate(n: Net, m: Move, lost: bool)
    requires Inv(n) && Fate(n, lost)
    ensures Fate(Step(n, m), lost || LosesAbort(n, m))
  {
    if n.slot {
      match m
      case Pull => EmitFate(n, S.OpNext, lost);
      case ConsumerReturn => EmitFate(n, S.OpReturn, lost);
      case ConsumerThrow(e) => EmitFate(n, S.OpThrow(e), lost);
      case SignalAbort => EmitFate(n, S.OpSignalAbort, lost);
      case ReceiveFrame => if n.frames != [] { FrameFate(n, lost); }
      case ReceiveControl => if n.control != [] { ControlFate(n, lost); }
      case WorkerMoves(i) => WorkerFate(n, i, lost);
    }
  }

  lemma {:induction false} RunFate(hwm: nat, signalAborted: bool, moves: seq<Move>)
    requires hwm >= 1
    ensures Fate(After(hwm, signalAborted, moves), Lost(hwm, signalAborted, moves))
    decreases |moves|
  {
    if moves == [] {
      assert Fate(Initial(hwm, signalAborted), signalAborted);
    } else {
      var last := |moves| - 1;
      RunFate(hwm, signalAborted, moves[..last]);
      Reached(hwm, signalAborted, moves[..last]);
      StepFate(After(hwm, signalAborted, moves[..last]), moves[last], Lost(hwm, signalAborted, moves[..last]));
      HappensPush(Initial(hwm, signalAborted), moves, LosesAbort);
      AfterLast(hwm, signalAborted, moves);
    }
  }

  lemma AfterLast(hwm: nat, signalAborted: bool, moves: seq<Move>)
    requires moves != []
    ensures After(hwm, signalAborted, moves)
         == Step(After(hwm, signalAborted, moves[..|moves| - 1]), moves[|moves| - 1])
  {
    assert moves == moves[..|moves| - 1] + [moves[|moves| - 1]];
    RunSnoc(Initial(hwm, signalAborted), moves[..|moves| - 1], moves[|moves| - 1]);
  }

  /**
   * An abort reaches the worker, except in three cases. In every run, while the
   * slot is held and the worker runs, the worker of an aborted stream neither
   * has its abort flag nor an ABORT on the way if and only if the signal was
   * aborted before the stream was made, the consumer's `throw()` aborted the
   * stream, or ABORT arrived before the run began.
   */
  lemma AbortLostIff(hwm: nat, signalAborted: bool, moves: seq<Move>)
    requires hwm >= 1
    ensures var n := After(hwm, signalAborted, moves);
      n.slot && W.Registered(n.worker) && n.stream.aborted ==>
        (!n.worker.aborted && W.Abort !in n.control
         <==> signalAborted || Happens(Initial(hwm, signalAborted), moves, LosesAbort))
  {
    RunFate(hwm, signalAborted, moves);
  }

  /** The first cause is reached by every run of such a stream; here the worker has just begun. */
  lemma AbortedSignalLoses(hwm: nat)
    requires hwm >= 1
    ensures var n := After(hwm, true, [WorkerMoves(W.Start(None))]);
      n.slot && W.Registered(n.worker) && n.stream.aborted && n.control == [] && !n.worker.aborted
  {
    RunSnoc(Initial(hwm, true), [], WorkerMoves(W.Start(None)));
    assert [] + [WorkerMoves(W.Start(None))] == [WorkerMoves(W.Start(None))];
  }

  /** The stream takes nothing and says nothing more. */
  predicate Mute(n: Net) {
    && n.stream.aborted && n.stream.settled && n.stream.buffered == [] && n.stream.accepted == []
    && n.control == [] && !n.worker.aborted && !n.worker.paused
  }

  lemma MuteEmit(n: Net, op: S.Op)
    requires S.Inv(n.stream) && Mute(n)
    ensures Mute(Emit(n, op)) && Emit(n, op).worker == n.worker
  {
    assert S.Apply(n.stream, op).events == n.stream.events;
    assert n.control + Messages([]) == n.control;
  }

  lemma MuteDeliver(n: Net)
    requires S.Inv(n.stream) && Mute(n) && n.frames != []
    ensures Mute(Deliver(n))
  {
    var f, m := n.frames[0], n.(frames := n.frames[1..]);
    match f
    case ChunkFrame(_, c) => MuteEmit(m, S.OpPushChunk(c));
    case EndFrame(wasAborted) => MuteEmit(m.(slot := false), if wasAborted then S.OpPushAbortEnd else S.OpPushEnd);
    case ErrorFrame(e) => MuteEmit(m.(slot := false), S.OpPushError(e));
  }

  lemma MuteStep(n: Net, m: Move)
    requires Inv(n) && Mute(n)
    ensures Mute(Step(n, m))
  {
    match m
    case Pull => MuteEmit(n, S.OpNext);
    case ConsumerReturn => MuteEmit(n, S.OpReturn);
    case ConsumerThrow(e) => MuteEmit(n, S.OpThrow(e));
    case SignalAbort => MuteEmit(n, S.OpSignalAbort);
    case ReceiveFrame => if n.frames != [] { MuteDeliver(n); }
    case ReceiveControl =>
    case WorkerMoves(i) => W.StepGrows(n.worker, i);
  }

  lemma {:induction false} MuteRun(n: Net, moves: seq<Move>)
    requires Inv(n) && Mute(n)
    ensures Mute(Run(n, moves))
    decreases |moves|
  {
    if moves != [] {
      MuteStep(n, moves[0]);
      StepKept(n, moves[0]);
      MuteRun(Step(n, moves[0]), moves[1..]);
      RunStep(n, moves);
    }
  }

  /**
   * Under such a signal the generator runs to its end for nobody: in no run is
   * the worker paused, parked or aborted, and no chunk reaches the consumer.
   */
  lemma RunsForNobody(hwm: nat, moves: seq<Move>)
    requires hwm >= 1
    ensures var n := After(hwm, true, moves);
      && n.control == [] && !n.worker.aborted && !n.worker.paused && !n.worker.phase.Parked?
      && S.Delivered(n.stream.replies) == [] && n.stream.buffered == []
  {
    InitialKept(hwm, true);
    MuteRun(Initial(hwm, true), moves);
    Reached(hwm, true, moves);
  }

  /** The second: a throw before anything else. */
  lemma ThrowLoses(hwm: nat, e: S.Failure)
    requires hwm >= 1
    ensures var n := After(hwm, false, [ConsumerThrow(e)] + [WorkerMoves(W.Start(None))]);
      n.slot && W.Registered(n.worker) && n.stream.aborted && n.control == [] && !n.worker.aborted
  {
    var n := Initial(hwm, false);
    RunSnoc(n, [], ConsumerThrow(e));
    assert [] + [ConsumerThrow(e)] == [ConsumerThrow(e)];
    RunSnoc(n, [ConsumerThrow(e)], WorkerMoves(W.Start(None)));
    assert [] + Messages([]) == [];
  }

  /** And the third: an abort that arrives while the worker still loads. */
  lemma EarlyAbortLoses(hwm: nat)
    requires hwm >= 1
    ensures var n := After(hwm, false, [SignalAbort] + [ReceiveControl] + [WorkerMoves(W.Start(None))]);
      n.slot && W.Registered(n.worker) && n.stream.aborted && n.control == [] && !n.worker.aborted
  {
    var n := Initial(hwm, false);
    RunSnoc(n, [], SignalAbort);
    assert [] + [SignalAbort] == [SignalAbort];
    RunSnoc(n, [SignalAbort], ReceiveControl);
    RunSnoc(n, [SignalAbort] + [ReceiveControl], WorkerMoves(W.Start(None)));
    var t := S.SignalAbort(S.Fresh(hwm));
    assert t.events[0..] == [S.Aborted] && [S.Aborted][..0] == [];
  }

  /** The stream is aborted, and nothing tells the worker. */
  predicate Unheard(n: Net) {
    n.stream.aborted && W.Abort !in n.control && !n.worker.aborted
  }

  lemma UnheardStep(n: Net, m: Move)
    requires Inv(n) && Unheard(n)
    ensures Unheard(Step(n, m))
  {
    SlotOrFinished(n);
    match m
    case Pull => UnheardEmit(n, S.OpNext);
    case ConsumerReturn => UnheardEmit(n, S.OpReturn);
    case ConsumerThrow(e) => UnheardEmit(n, S.OpThrow(e));
    case SignalAbort => UnheardEmit(n, S.OpSignalAbort);
    case ReceiveFrame => if n.frames != [] { UnheardFrame(n); }
    case ReceiveControl =>
    case WorkerMoves(i) => W.StepGrows(n.worker, i);
  }

  lemma UnheardFrame(n: Net)
    requires S.Inv(n.stream) && Unheard(n) && n.frames != []
    ensures Unheard(Deliver(n))
  {
    var f, m := n.frames[0], n.(frames := n.frames[1..]);
    match f
    case ChunkFrame(_, c) => UnheardEmit(m, S.OpPushChunk(c));
    case EndFrame(wasAborted) =>
      UnheardEmit(m.(slot := false), if wasAborted then S.OpPushAbortEnd else S.OpPushEnd);
    case ErrorFrame(e) => UnheardEmit(m.(slot := false), S.OpPushError(e));
  }

  lemma UnheardEmit(n: Net, op: S.Op)
    requires S.Inv(n.stream) && Unheard(n)
    ensures Unheard(Emit(n, op))
  {
    if n.slot {
      var posted := AbortPosted(n, op);
    } else {
      S.AbortStep(n.stream, op);
    }
  }

  /** A lost abort is lost for good: in no continuation does the worker learn of it. */
  lemma {:induction false} LostForGood(n: Net, more: seq<Move>)
    requires Inv(n) && Unheard(n)
    ensures Unheard(Run(n, more))
    decreases |more|
  {
    if more != [] {
      UnheardStep(n, more[0]);
      StepKept(n, more[0]);
      LostForGood(Step(n, more[0]), more[1..]);
      RunStep(n, more);
    }
  }

  /** The worker is parked, and the stream is aborted without its knowledge. */
  predicate Stranded(n: Net) {
    n.worker.phase.Parked? && n.control == [] && n.stream.aborted
  }

  lemma StrandedStep(n: Net, m: Move)
    requires Inv(n) && Stranded(n) && (m.Pull? ==> n.stream.hwm == 1)
    ensures Stranded(Step(n, m)) && Step(n, m).worker == n.worker
  {
    if m.Pull? || m.ConsumerReturn? || m.ConsumerThrow? || m.SignalAbort? {
      var op := match m
        case Pull => S.OpNext
        case ConsumerReturn => S.OpReturn
        case ConsumerThrow(e) => S.OpThrow(e)
        case _ => S.OpSignalAbort;
      assert S.Apply(n.stream, op).events == n.stream.events;
      assert n.control + Messages([]) == n.control;
    } else if m.ReceiveFrame? && n.frames != [] {
      SlotOrFinished(n);
      assert S.Apply(n.stream, S.OpPushChunk(n.frames[0].chunk)) == n.stream;
      assert n.control + Messages([]) == n.control;
    }
  }

  /** Without further pulls a stranded worker stays parked, whatever else happens. */
  lemma {:induction false} StrandedStays(n: Net, more: seq<Move>)
    requires Inv(n) && Stranded(n) && (n.stream.hwm == 1 || forall m :: m in more ==> !m.Pull?)
    ensures Run(n, more).worker == n.worker
    decreases |more|
  {
    if more != [] {
      assert more[0] in more;
      StrandedStep(n, more[0]);
      StepKept(n, more[0]);
      HwmKept(n, more[0]);
      StrandedStays(Step(n, more[0]), more[1..]);
      RunStep(n, more);
    }
  }

  /** Pulls get it out if and only if the high-water mark is at least 2. */
  lemma StrandedIff(n: Net)
    requires Inv(n) && Stranded(n)
    ensures (exists more :: Run(n, more).worker != n.worker) <==> n.stream.hwm >= 2
  {
    if n.stream.hwm >= 2 {
      SlotOrFinished(n);
      HeldWakes(n);
      var more := Pulls(|n.stream.buffered| - n.stream.hwm / 2 + 1) + [ReceiveControl];
      assert Run(n, more).worker != n.worker;
    } else {
      forall more ensures Run(n, more).worker == n.worker {
        StrandedStays(n, more);
      }
    }
  }

  /** It is reached for every high-water mark: the buffer fills, the worker parks, the consumer throws. */
  lemma StrandingRun(hwm: nat, e: S.Failure) returns (moves: seq<Move>)
    requires hwm >= 1
    ensures Stranded(After(hwm, false, moves))
  {
    moves := ParkingRun(hwm);
    moves := Then(Initial(hwm, false), moves, ConsumerThrow(e));
    var s := Stuck(hwm).stream;
    assert S.Throw(s, e).events == s.events;
    assert [] + Messages([]) == [];
  }

  // ---- The slot of a run that ended without a closing frame ----

  lemma {:induction false} FinishedStays(n: Net, more: seq<Move>)
    requires n.worker.phase.Finished?
    ensures Run(n, more).worker == n.worker
    decreases |more|
  {
    if more != [] {
      FinishedStays(Step(n, more[0]), more[1..]);
      RunStep(n, more);
    }
  }

  /** Taking every frame on the way, one after another. */
  lemma {:induction false} TakeAll(n: Net) returns (more: seq<Move>)
    requires Inv(n) && n.worker.phase.Finished?
    ensures Run(n, more).frames == []
    decreases |n.frames|
  {
    if n.frames == [] {
      return [];
    }
    StepKept(n, ReceiveFrame);
    var rest := TakeAll(Step(n, ReceiveFrame));
    more := [ReceiveFrame] + rest;
    assert more[1..] == rest;
    RunStep(n, more);
  }

  /** The worker ends its run in this move, and posts no closing frame. */
  predicate EndsMute(n: Net, m: Move) {
    m.WorkerMoves? && W.Mute(n.worker, m.input)
  }

  predicate EndedMute(n: Net) {
    n.worker.phase.Finished? && |n.worker.posted| == n.worker.seqNo
  }

  lemma {:induction false} MuteFate(n: Net, moves: seq<Move>)
    requires Inv(n) && !EndedMute(n)
    ensures Happens(n, moves, EndsMute) <==> EndedMute(Run(n, moves))
    decreases |moves|
  {
    if moves != [] {
      var last := |moves| - 1;
      var m := Run(n, moves[..last]);
      MuteFate(n, moves[..last]);
      RunKept(n, moves[..last]);
      HappensPush(n, moves, EndsMute);
      assert moves == moves[..last] + [moves[last]];
      RunSnoc(n, moves[..last], moves[last]);
      EndedStep(m, moves[last], Step(m, moves[last]));
    }
  }

  lemma EndedStep(n: Net, m: Move, t: Net)
    requires W.Inv(n.worker) && t == Step(n, m)
    ensures EndedMute(t) <==> EndedMute(n) || EndsMute(n, m)
  {
    assert !n.worker.phase.Finished? ==> |n.worker.posted| == n.worker.seqNo;
  }

  /**
   * The worker handle gets its slot back if and only if the run posts a
   * closing frame: after a load that failed, or a throw that followed the
   * abort, it stays busy in every continuation, and after no other end.
   */
  lemma SlotHeldForGoodIff(hwm: nat, signalAborted: bool, moves: seq<Move>)
    requires hwm >= 1 && After(hwm, signalAborted, moves).worker.phase.Finished?
    ensures var n := After(hwm, signalAborted, moves);
      && ((forall more :: Run(n, more).slot) <==> |n.worker.posted| == n.worker.seqNo)
      && ((forall more :: Run(n, more).slot) <==> Happens(Initial(hwm, signalAborted), moves, EndsMute))
  {
    var n := After(hwm, signalAborted, moves);
    Reached(hwm, signalAborted, moves);
    InitialKept(hwm, signalAborted);
    MuteFate(Initial(hwm, signalAborted), moves);
    if |n.worker.posted| == n.worker.seqNo {
      forall more ensures Run(n, more).slot {
        RunKept(n, more);
        FinishedStays(n, more);
      }
    } else {
      var more := TakeAll(n);
      RunKept(n, more);
      FinishedStays(n, more);
      assert !Run(n, more).slot;
    }
  }

  /** Nothing arrived and nothing will. */
  predicate Unanswered(n: Net) {
    && n.worker.phase.Finished? && n.frames == [] && n.stream.buffered == [] && n.stream.replies == []
    && !n.stream.settled && !n.stream.aborted && n.stream.info.None?
  }

  /** A move that neither the consumer's `return()` or `throw()` nor the signal makes. */
  predicate Patient(m: Move) { m.Pull? || m.ReceiveFrame? || m.ReceiveControl? || m.WorkerMoves? }

  lemma {:induction false} UnansweredStays(n: Net, more: seq<Move>)
    requires Unanswered(n) && forall m :: m in more ==> Patient(m)
    ensures Run(n, more).stream.replies == []
    decreases |more|
  {
    if more != [] {
      assert more[0] in more;
      UnansweredStays(Step(n, more[0]), more[1..]);
      RunStep(n, more);
    }
  }

  lemma NoReplies(s: S.State)
    requires S.Inv(s) && !s.settled && s.accepted == []
    ensures s.replies == [] && s.buffered == []
  {
    assert s.replies != [] ==> S.TerminalSeen(s.replies) || S.Delivered(s.replies) != [];
  }

  lemma LoadFailed(n: Net, t: Net)
    requires Inv(n) && n.worker.phase.Loading? && t == Step(n, WorkerMoves(W.LoadFails))
    ensures Inv(t) && t.worker.phase.Finished? && |t.worker.posted| == t.worker.seqNo
    ensures !n.stream.settled ==> Unanswered(t)
  {
    StepKept(n, WorkerMoves(W.LoadFails));
    assert t.worker == n.worker.(phase := W.Finished);
    SlotOrFinished(n);
    if !n.stream.settled {
      NoReplies(n.stream);
    }
  }

  /**
   * A load that fails keeps the slot for ever, and leaves the consumer of an
   * unsettled stream without any answer, however often it pulls, until it
   * gives up itself.
   */
  lemma LoadFailureHangs(hwm: nat, signalAborted: bool, moves: seq<Move>, more: seq<Move>)
    requires hwm >= 1 && After(hwm, signalAborted, moves).worker.phase.Loading?
    ensures var n := After(hwm, signalAborted, moves);
      var t := Run(Step(n, WorkerMoves(W.LoadFails)), more);
      t.slot && (!n.stream.settled && (forall m :: m in more ==> Patient(m)) ==> t.stream.replies == [])
  {
    var n := After(hwm, signalAborted, moves);
    var t := Step(n, WorkerMoves(W.LoadFails));
    Reached(hwm, signalAborted, moves);
    LoadFailed(n, t);
    if Unanswered(t) && forall m :: m in more ==> Patient(m) {
      UnansweredStays(t, more);
    }
    RunKept(t, more);
    FinishedStays(t, more);
  }

  /** So it does after such a throw in any run. */
  lemma SlotHeldAfterThrow(hwm: nat, signalAborted: bool, moves: seq<Move>, e: S.Failure, more: seq<Move>)
    requires hwm >= 1
    requires var w := After(hwm, signalAborted, moves).worker; w.phase.Pulling? && w.aborted
    ensures Run(Step(After(hwm, signalAborted, moves), WorkerMoves(W.Gen(W.Throws(e)))), more).slot
  {
    var n := After(hwm, signalAborted, moves);
    var m := WorkerMoves(W.Gen(W.Throws(e)));
    Reached(hwm, signalAborted, moves);
    SlotOrFinished(n);
    StepKept(n, m);
    var t := Step(n, m);
    assert t.worker == n.worker.(phase := W.Finished);
    RunKept(t, more);
    FinishedStays(t, more);
  }

  /** Such a run is reachable: an abort while the generator works, and a throw in answer. */
  lemma AbortedPullReached(hwm: nat)
    requires hwm >= 1
    ensures var n := After(hwm, false, [WorkerMoves(W.Start(None))] + [SignalAbort] + [ReceiveControl]);
      n.worker.phase.Pulling? && n.worker.aborted
  {
    var n := Initial(hwm, false);
    var start := WorkerMoves(W.Start(None));
    RunSnoc(n, [], start);
    assert [] + [start] == [start];
    var begun := n.(worker := W.Idle.(phase := W.Pulling));
    assert Step(n, start) == begun;
    RunSnoc(n, [start], SignalAbort);
    RunSnoc(n, [start] + [SignalAbort], ReceiveControl);
    var t := S.SignalAbort(S.Fresh(hwm));
    assert t.events[0..] == [S.Aborted] && [S.Aborted][..0] == [];
    assert Step(begun, SignalAbort) == begun.(stream := t, control := [W.Abort]);
  }
}
