/**
 * The consumer-facing stream (src/streaming.js): a bounded buffer with
 * hysteresis, one parked pull, and a settlement that is consumed once.
 *
 * `State` is the stream as a value, extended with the record of what the
 * outside world saw: the chunks accepted, the replies given to pulls and the
 * events emitted. Class `Stream` performs the same steps on mutable fields.
 */
module Streams {
  import opened Prelude

  type Chunk = int
  type Failure = int

  datatype Settlement = EndInfo | AbortInfo | ErrorInfo(error: Failure)
  datatype Event = Paused | Resumed | Ended | Aborted | Errored(error: Failure)
  datatype Reply = Yielded(value: Chunk) | Done | Thrown(error: Failure)

  datatype State = State(
    hwm: nat,
    buffered: seq<Chunk>,
    waiting: bool,
    aborted: bool,
    settled: bool,
    info: Option<Settlement>,
    endPushed: bool,
    backpressured: bool,
    accepted: seq<Chunk>,
    replies: seq<Reply>,
    events: seq<Event>,
    pulls: nat,
    overwritten: nat)

  datatype Op =
    | OpPushChunk(chunk: Chunk)
    | OpPushEnd
    | OpPushAbortEnd
    | OpPushError(error: Failure)
    | OpNext
    | OpReturn
    | OpThrow(error: Failure)
    | OpSignalAbort

  // ---- The steps ----

  function Fresh(hwm: nat): State {
    State(hwm, [], false, false, false, None, false, false, [], [], [], 0, 0)
  }

  function Init(hwm: nat, signalAborted: bool): State {
    if signalAborted then SignalAbort(Fresh(hwm)) else Fresh(hwm)
  }

  function MaybeResume(s: State): State {
    if s.backpressured && |s.buffered| < s.hwm / 2
    then s.(backpressured := false, events := s.events + [Resumed])
    else s
  }

  function TakeChunk(s: State): State
    requires s.buffered != []
  {
    MaybeResume(s.(buffered := s.buffered[1..], replies := s.replies + [Yielded(s.buffered[0])]))
  }

  function Answer(info: Settlement): Reply {
    if info.ErrorInfo? then Thrown(info.error) else Done
  }

  function TakeInfo(s: State): State
    requires s.info.Some?
  {
    s.(info := None, replies := s.replies + [Answer(s.info.value)])
  }

  function Deliver(s: State): State {
    if !s.waiting then s
    else if s.buffered != [] then TakeChunk(s.(waiting := false))
    else if s.settled && s.info.Some? then TakeInfo(s.(waiting := false))
    else s
  }

  function PushChunk(s: State, c: Chunk): State {
    if s.settled || s.aborted then s
    else
      var t := s.(buffered := s.buffered + [c], accepted := s.accepted + [c]);
      Deliver(if |s.buffered| < s.hwm <= |t.buffered|
              then t.(backpressured := true, events := t.events + [Paused])
              else t)
  }

  function PushEnd(s: State): State {
    if s.settled then s
    else Deliver(s.(settled := true, endPushed := true, info := Some(EndInfo), events := s.events + [Ended]))
  }

  function PushAbortEnd(s: State): State {
    if s.settled then s
    else Deliver(s.(settled := true, aborted := true, info := Some(AbortInfo), events := s.events + [Aborted]))
  }

  function PushError(s: State, e: Failure): State {
    if s.settled then s
    else Deliver(s.(settled := true, info := Some(ErrorInfo(e)), events := s.events + [Errored(e)]))
  }

  function Next(s: State): State {
    var t := s.(pulls := s.pulls + 1);
    if s.buffered != [] then TakeChunk(t)
    else if s.settled && s.info.Some? then TakeInfo(t)
    else if s.settled || s.aborted then t.(replies := s.replies + [Done])
    else t.(waiting := true, overwritten := s.overwritten + (if s.waiting then 1 else 0))
  }

  function Return(s: State): State {
    var t := if s.aborted then s else s.(aborted := true, events := s.events + [Aborted]);
    var u := t.(settled := true);
    if u.waiting then u.(waiting := false, replies := u.replies + [Done]) else u
  }

  function Throw(s: State, e: Failure): State {
    var t := s.(aborted := true, settled := true, info := Some(ErrorInfo(e)));
    if t.waiting then t.(waiting := false, replies := t.replies + [Thrown(e)]) else t
  }

  function SignalAbort(s: State): State {
    if s.aborted then s
    else Deliver(s.(aborted := true, settled := true,
                 info := if s.info.None? then Some(AbortInfo) else s.info,
                 events := s.events + [Aborted]))
  }

  function Apply(s: State, op: Op): State {
    match op
    case OpPushChunk(c) => PushChunk(s, c)
    case OpPushEnd => PushEnd(s)
    case OpPushAbortEnd => PushAbortEnd(s)
    case OpPushError(e) => PushError(s, e)
    case OpNext => Next(s)
    case OpReturn => Return(s)
    case OpThrow(e) => Throw(s, e)
    case OpSignalAbort => SignalAbort(s)
  }

  function Run(s: State, ops: seq<Op>): State
    decreases |ops|
  {
    if ops == [] then s else Run(Apply(s, ops[0]), ops[1..])
  }

  // ---- What the outside world saw ----

  /** The chunks handed to the consumer, in order. */
  function Delivered(replies: seq<Reply>): seq<Chunk> {
    if replies == [] then []
    else
      var last := replies[|replies| - 1];
      Delivered(replies[..|replies| - 1]) + (if last.Yielded? then [last.value] else [])
  }

  function Count(events: seq<Event>, e: Event): nat {
    if events == [] then 0
    else Count(events[..|events| - 1], e) + (if events[|events| - 1] == e then 1 else 0)
  }

  /** Settlement events: `stream:end` and `stream:error`. */
  function Settlements(events: seq<Event>): nat {
    if events == [] then 0
    else
      var last := events[|events| - 1];
      Settlements(events[..|events| - 1]) + (if last.Ended? || last.Errored? then 1 else 0)
  }

  /** Chunks that leave the buffer between a `paused` and the `resumed` that ends it. */
  function Swing(hwm: nat): nat { hwm - hwm / 2 + 1 }

  /** `n * k`, by repeated addition. */
  function Times(n: nat, k: nat): nat {
    if n == 0 then 0 else Times(n - 1, k) + k
  }

  lemma TimesIsProduct(n: nat, k: nat)
    ensures Times(n, k) == n * k
  {
    if n > 0 {
      assert (n - 1) * k + k == n * k;
    }
  }

  /** The most recent backpressure event is a `paused` one. */
  predicate PauseOpen(events: seq<Event>) {
    events != [] &&
    var last := events[|events| - 1];
    last == Paused || (last != Resumed && PauseOpen(events[..|events| - 1]))
  }

  /** Every `resumed` closes an open pause. */
  predicate Alternating(events: seq<Event>) {
    events == [] ||
    (&& Alternating(events[..|events| - 1])
     && (events[|events| - 1] == Resumed ==> PauseOpen(events[..|events| - 1])))
  }

  /** Some pull was answered without a chunk. */
  predicate TerminalSeen(replies: seq<Reply>) {
    replies != [] && (!replies[|replies| - 1].Yielded? || TerminalSeen(replies[..|replies| - 1]))
  }

  /** Chunks only before the first answer without one. */
  predicate ChunksFirst(replies: seq<Reply>) {
    replies == [] ||
    (&& ChunksFirst(replies[..|replies| - 1])
     && (replies[|replies| - 1].Yielded? ==> !TerminalSeen(replies[..|replies| - 1])))
  }

  /** `owed` is the number of pulls taken up by the current step and not answered yet. */
  ghost predicate DeliveryInv(s: State, owed: nat) {
    && Delivered(s.replies) + s.buffered == s.accepted
    && (s.waiting ==> s.buffered == [] && !s.settled)
    && (s.aborted ==> s.settled)
    && (s.info.Some? ==> s.settled)
    && s.pulls == |s.replies| + s.overwritten + (if s.waiting then 1 else 0) + owed
    && ChunksFirst(s.replies)
    && (TerminalSeen(s.replies) ==> s.settled && s.buffered == [])
  }

  ghost predicate FlowInv(s: State) {
    && s.hwm >= 1
    && (!s.backpressured ==> |s.buffered| < s.hwm)
    && (s.backpressured ==> |s.buffered| >= s.hwm / 2)
    && Alternating(s.events)
    && (s.backpressured ==> PauseOpen(s.events))
  }

  /** Every `resumed` was paid for by `Swing` deliveries, and an open pause is being paid for. */
  ghost predicate SwingInv(s: State) {
    && |Delivered(s.replies)| >= Times(Count(s.events, Resumed), Swing(s.hwm))
                                 + (if s.backpressured && |s.buffered| < s.hwm then s.hwm - |s.buffered| else 0)
    && (s.hwm == 1 ==> Count(s.events, Resumed) == 0)
  }

  ghost predicate EventInv(s: State) {
    && Count(s.events, Aborted) <= (if s.aborted then 1 else 0)
    && Settlements(s.events) <= (if s.settled then 1 else 0)
    && (s.endPushed <==> Count(s.events, Ended) == 1)
    && Count(s.events, Ended) <= Settlements(s.events)
  }

  ghost predicate Inv(s: State) {
    DeliveryInv(s, 0) && FlowInv(s) && SwingInv(s) && EventInv(s)
  }

  // ---- Every step keeps the invariant ----

  lemma EventAppend(events: seq<Event>, e: Event)
    ensures Count(events + [e], Resumed) == Count(events, Resumed) + (if e == Resumed then 1 else 0)
    ensures Count(events + [e], Paused) == Count(events, Paused) + (if e == Paused then 1 else 0)
    ensures Count(events + [e], Aborted) == Count(events, Aborted) + (if e == Aborted then 1 else 0)
    ensures Count(events + [e], Ended) == Count(events, Ended) + (if e == Ended then 1 else 0)
    ensures Settlements(events + [e]) == Settlements(events) + (if e.Ended? || e.Errored? then 1 else 0)
    ensures PauseOpen(events + [e]) <==> e == Paused || (e != Resumed && PauseOpen(events))
    ensures Alternating(events + [e]) <==> Alternating(events) && (e == Resumed ==> PauseOpen(events))
  {
    assert (events + [e])[..|events|] == events;
  }

  lemma ResumeFlow(s: State, t: State)
    requires FlowInv(s) && s.buffered != []
    requires t.hwm == s.hwm && t.events == s.events && t.backpressured == s.backpressured
    requires |t.buffered| == |s.buffered| - 1
    ensures FlowInv(MaybeResume(t))
  {
    EventAppend(t.events, Resumed);
  }

  lemma ResumeSwing(s: State, t: State)
    requires FlowInv(s) && SwingInv(s) && s.buffered != []
    requires t.hwm == s.hwm && t.events == s.events && t.backpressured == s.backpressured
    requires |t.buffered| == |s.buffered| - 1 && |Delivered(t.replies)| == |Delivered(s.replies)| + 1
    ensures SwingInv(MaybeResume(t))
  {
    EventAppend(t.events, Resumed);
  }

  lemma ResumeRest(t: State)
    requires DeliveryInv(t, 0) && EventInv(t)
    ensures DeliveryInv(MaybeResume(t), 0) && EventInv(MaybeResume(t))
  {
    EventAppend(t.events, Resumed);
  }

  lemma TakeChunkKept(s: State)
    requires DeliveryInv(s, 1) && FlowInv(s) && SwingInv(s) && EventInv(s)
    requires s.buffered != []
    ensures Inv(TakeChunk(s))
  {
    var t := s.(buffered := s.buffered[1..], replies := s.replies + [Yielded(s.buffered[0])]);
    ResumeFlow(s, t);
    ResumeSwing(s, t);
    ResumeRest(t);
  }

  lemma DeliverKept(s: State)
    requires DeliveryInv(s.(waiting := false), if s.waiting then 1 else 0) && FlowInv(s) && SwingInv(s) && EventInv(s)
    requires s.waiting && s.buffered == [] && s.settled ==> s.info.Some?
    ensures Inv(Deliver(s))
  {
    if s.waiting {
      var t := s.(waiting := false);
      if s.buffered != [] {
        TakeChunkKept(t);
      }
    }
  }

  lemma SettleKept(s: State, e: Event, t: State)
    requires Inv(s) && (!s.settled || e == Aborted)
    requires e == Ended || e.Errored? || (e == Aborted && !s.aborted)
    requires t.info.Some? && (e == Aborted ==> t.aborted)
    requires t == s.(settled := true, aborted := t.aborted, info := t.info, events := s.events + [e],
                     endPushed := s.endPushed || e == Ended)
    requires t.aborted == (s.aborted || e == Aborted)
    ensures Inv(Deliver(t))
  {
    EventAppend(s.events, e);
    DeliverKept(t);
  }

  lemma PushChunkKept(s: State, c: Chunk)
    requires Inv(s)
    ensures Inv(PushChunk(s, c))
  {
    if !s.settled && !s.aborted {
      var t := s.(buffered := s.buffered + [c], accepted := s.accepted + [c]);
      var u := t.(backpressured := true, events := t.events + [Paused]);
      EventAppend(s.events, Paused);
      if |s.buffered| < s.hwm <= |t.buffered| {
        DeliverKept(u);
      } else {
        DeliverKept(t);
      }
    }
  }

  lemma PullOpened(s: State)
    requires Inv(s) && !s.waiting
    ensures var t := s.(pulls := s.pulls + 1);
      DeliveryInv(t, 1) && FlowInv(t) && SwingInv(t) && EventInv(t)
  {
  }

  lemma NextForm(s: State)
    ensures var t := s.(pulls := s.pulls + 1);
      Next(s) == if s.buffered != [] then TakeChunk(t)
                 else if s.settled && s.info.Some? then TakeInfo(t)
                 else if s.settled || s.aborted then t.(replies := s.replies + [Done])
                 else t.(waiting := true, overwritten := s.overwritten + (if s.waiting then 1 else 0))
  {
  }

  lemma NextOpen(s: State)
    requires Inv(s) && !s.waiting && (s.buffered != [] || s.settled)
    ensures s.buffered != [] ==> Inv(TakeChunk(s.(pulls := s.pulls + 1)))
    ensures s.buffered == [] && s.info.Some? ==> Inv(TakeInfo(s.(pulls := s.pulls + 1)))
    ensures s.buffered == [] && s.info.None? ==>
              Inv(s.(pulls := s.pulls + 1, replies := s.replies + [Done]))
  {
    var t := s.(pulls := s.pulls + 1);
    PullOpened(s);
    if s.buffered != [] {
      TakeChunkKept(t);
    }
  }

  lemma NextKept(s: State)
    requires Inv(s)
    ensures Inv(Next(s))
  {
    NextForm(s);
    if s.buffered != [] || s.settled {
      NextOpen(s);
    }
  }

  lemma ReturnKept(s: State)
    requires Inv(s)
    ensures Inv(Return(s))
  {
    EventAppend(s.events, Aborted);
  }

  lemma ThrowKept(s: State, e: Failure)
    requires Inv(s)
    ensures Inv(Throw(s, e))
  {
  }

  lemma StepKept(s: State, op: Op)
    requires Inv(s)
    ensures Inv(Apply(s, op))
  {
    match op
    case OpPushChunk(c) => PushChunkKept(s, c);
    case OpPushEnd =>
      if !s.settled {
        SettleKept(s, Ended,
                   s.(settled := true, endPushed := true, info := Some(EndInfo), events := s.events + [Ended]));
      }
    case OpPushAbortEnd =>
      if !s.settled {
        SettleKept(s, Aborted,
                   s.(settled := true, aborted := true, info := Some(AbortInfo), events := s.events + [Aborted]));
      }
    case OpPushError(e) =>
      if !s.settled {
        SettleKept(s, Errored(e), s.(settled := true, info := Some(ErrorInfo(e)), events := s.events + [Errored(e)]));
      }
    case OpNext => NextKept(s);
    case OpReturn => ReturnKept(s);
    case OpThrow(e) => ThrowKept(s, e);
    case OpSignalAbort =>
      if !s.aborted {
        SettleKept(s, Aborted, s.(aborted := true, settled := true,
                   info := if s.info.None? then Some(AbortInfo) else s.info, events := s.events + [Aborted]));
      }
  }

  // ---- Whole runs ----

  lemma InitInv(hwm: nat, signalAborted: bool)
    requires hwm >= 1
    ensures Inv(Init(hwm, signalAborted))
  {
    assert Inv(Fresh(hwm));
    StepKept(Fresh(hwm), OpSignalAbort);
  }

  lemma DeliverHwm(s: State)
    ensures Deliver(s).hwm == s.hwm
  {
  }

  lemma StepHwm(s: State, op: Op)
    ensures Apply(s, op).hwm == s.hwm
  {
    match op
    case OpPushChunk(c) =>
      var u := s.(buffered := s.buffered + [c], accepted := s.accepted + [c]);
      DeliverHwm(u);
      DeliverHwm(u.(backpressured := true, events := u.events + [Paused]));
    case OpPushEnd =>
      DeliverHwm(s.(settled := true, endPushed := true, info := Some(EndInfo), events := s.events + [Ended]));
    case OpPushAbortEnd =>
      DeliverHwm(s.(settled := true, aborted := true, info := Some(AbortInfo), events := s.events + [Aborted]));
    case OpPushError(e) =>
      DeliverHwm(s.(settled := true, info := Some(ErrorInfo(e)), events := s.events + [Errored(e)]));
    case _ =>
  }

  lemma RunStep(s: State, ops: seq<Op>)
    requires ops != []
    ensures Run(s, ops) == Run(Apply(s, ops[0]), ops[1..])
  {
  }

  lemma {:induction false} RunKept(s: State, ops: seq<Op>)
    requires Inv(s)
    ensures Inv(Run(s, ops)) && Run(s, ops).hwm == s.hwm
    decreases |ops|
  {
    if ops != [] {
      var t := Apply(s, ops[0]);
      StepKept(s, ops[0]);
      StepHwm(s, ops[0]);
      RunKept(t, ops[1..]);
      RunStep(s, ops);
    }
  }

  lemma RunAppend(s: State, a: seq<Op>, b: seq<Op>)
    ensures Run(s, a + b) == Run(Run(s, a), b)
    decreases |a|
  {
    if a == [] {
      assert a + b == b;
    } else {
      assert (a + b)[1..] == a[1..] + b;
      RunAppend(Apply(s, a[0]), a[1..], b);
    }
  }

  lemma {:induction false} ChunksFirstMeans(replies: seq<Reply>)
    ensures TerminalSeen(replies) <==> exists i :: 0 <= i < |replies| && !replies[i].Yielded?
    ensures ChunksFirst(replies) <==>
            forall i, j :: 0 <= i < j < |replies| && replies[j].Yielded? ==> replies[i].Yielded?
  {
    if replies != [] {
      var n := |replies| - 1;
      var init := replies[..n];
      ChunksFirstMeans(init);
      assert forall i :: 0 <= i < n ==> init[i] == replies[i];
    }
  }

  lemma {:induction false} PauseOpenMeans(events: seq<Event>)
    ensures PauseOpen(events) <==> exists p :: 0 <= p < |events| && events[p] == Paused
                                            && forall q :: p < q < |events| ==> events[q] != Resumed
  {
    if events != [] {
      var n := |events| - 1;
      var init := events[..n];
      PauseOpenMeans(init);
      assert forall i :: 0 <= i < n ==> init[i] == events[i];
    }
  }

  lemma {:induction false} AlternatingMeans(events: seq<Event>, i: nat, j: nat)
    requires Alternating(events)
    requires i < j < |events| && events[i] == Resumed && events[j] == Resumed
    ensures exists k :: i < k < j && events[k] == Paused
  {
    var n := |events| - 1;
    var init := events[..n];
    if j < n {
      AlternatingMeans(init, i, j);
      var k :| i < k < j && init[k] == Paused;
      assert events[k] == Paused;
    } else {
      PauseOpenMeans(init);
      var p :| 0 <= p < n && init[p] == Paused && forall q :: p < q < n ==> init[q] != Resumed;
      assert init[i] == Resumed;
      assert i < p < j && events[p] == Paused;
    }
  }

  /**
   * Delivery is exact over every run. Chunks come out in the order they went
   * in, none is lost or repeated; a pull is told "done" or given an error only
   * after every accepted chunk was delivered, and from then on no pull gets a chunk.
   */
  lemma ExactDelivery(hwm: nat, signalAborted: bool, ops: seq<Op>)
    requires hwm >= 1
    ensures var s := Run(Init(hwm, signalAborted), ops);
      && Delivered(s.replies) + s.buffered == s.accepted
      && (forall i, j :: 0 <= i < j < |s.replies| && s.replies[j].Yielded? ==> s.replies[i].Yielded?)
      && ((exists i :: 0 <= i < |s.replies| && !s.replies[i].Yielded?) ==> Delivered(s.replies) == s.accepted)
  {
    InitInv(hwm, signalAborted);
    RunKept(Init(hwm, signalAborted), ops);
    ChunksFirstMeans(Run(Init(hwm, signalAborted), ops).replies);
  }

  /** Settling freezes what was accepted, whatever is called afterwards. */
  lemma {:induction false} AcceptedFrozen(s: State, ops: seq<Op>)
    requires s.settled
    ensures Run(s, ops).settled && Run(s, ops).accepted == s.accepted
    decreases |ops|
  {
    if ops != [] {
      AcceptedFrozen(Apply(s, ops[0]), ops[1..]);
      RunStep(s, ops);
    }
  }

  /** `stream:aborted` is emitted at most once, and so is the one end or error event. */
  lemma TerminalEventsOnce(hwm: nat, signalAborted: bool, ops: seq<Op>)
    requires hwm >= 1
    ensures var s := Run(Init(hwm, signalAborted), ops);
      Count(s.events, Aborted) <= 1 && Settlements(s.events) <= 1
  {
    InitInv(hwm, signalAborted);
    RunKept(Init(hwm, signalAborted), ops);
  }

  /** Every pull is answered, or parked, or was displaced by a pull made while it was parked. */
  lemma PullAccounting(hwm: nat, signalAborted: bool, ops: seq<Op>)
    requires hwm >= 1
    ensures var s := Run(Init(hwm, signalAborted), ops);
      && s.pulls == |s.replies| + s.overwritten + (if s.waiting then 1 else 0)
      && (Next(s).overwritten == s.overwritten <==> !s.waiting)
  {
    InitInv(hwm, signalAborted);
    RunKept(Init(hwm, signalAborted), ops);
  }

  /**
   * Hysteresis over every run: the flag tells on which side of the two marks
   * the buffer is, a `paused` lies between two `resumed`, and each `resumed`
   * is matched by `Swing(hwm)` deliveries of its own.
   */
  lemma Hysteresis(hwm: nat, signalAborted: bool, ops: seq<Op>)
    requires hwm >= 1
    ensures var s := Run(Init(hwm, signalAborted), ops);
      && (!s.backpressured ==> |s.buffered| < hwm)
      && (s.backpressured ==> |s.buffered| >= hwm / 2)
      && (forall i, j :: 0 <= i < j < |s.events| && s.events[i] == Resumed && s.events[j] == Resumed
            ==> exists k :: i < k < j && s.events[k] == Paused)
      && Count(s.events, Resumed) * Swing(hwm) <= |Delivered(s.replies)|
  {
    InitInv(hwm, signalAborted);
    RunKept(Init(hwm, signalAborted), ops);
    var s := Run(Init(hwm, signalAborted), ops);
    forall i, j | 0 <= i < j < |s.events| && s.events[i] == Resumed && s.events[j] == Resumed
      ensures exists k :: i < k < j && s.events[k] == Paused
    {
      AlternatingMeans(s.events, i, j);
    }
    TimesIsProduct(Count(s.events, Resumed), Swing(hwm));
  }

  // ---- Where the code departs from its comments ----

  /** `n` chunks pushed one after another. */
  function Pushes(n: nat): seq<Op> {
    seq(n, i => OpPushChunk(i))
  }

  /** `n` pulls made one after another. */
  function Nexts(n: nat): seq<Op> {
    seq(n, i => OpNext)
  }

  lemma {:induction false} FillUp(hwm: nat, n: nat)
    requires 1 <= n <= hwm
    ensures var s := Run(Fresh(hwm), Pushes(n));
      && |s.buffered| == n && !s.settled && !s.waiting && !s.aborted
      && s.hwm == hwm && s.backpressured == (n == hwm)
      && s.events == (if n == hwm then [Paused] else [])
  {
    assert Pushes(n) == Pushes(n - 1) + [OpPushChunk(n - 1)];
    RunAppend(Fresh(hwm), Pushes(n - 1), [OpPushChunk(n - 1)]);
    var s := Run(Fresh(hwm), Pushes(n - 1));
    if n > 1 {
      FillUp(hwm, n - 1);
    }
    assert Run(s, [OpPushChunk(n - 1)]) == Apply(s, OpPushChunk(n - 1));
  }

  /** `m` pulls that stay at or above the low mark emit nothing. */
  lemma {:induction false} DrainDown(s: State, m: nat)
    requires s.backpressured && m <= |s.buffered| && |s.buffered| - m >= s.hwm / 2
    ensures var t := Run(s, Nexts(m));
      t.hwm == s.hwm && |t.buffered| == |s.buffered| - m && t.backpressured && t.events == s.events
    decreases m
  {
    if m > 0 {
      assert Nexts(m)[0] == OpNext && Nexts(m)[1..] == Nexts(m - 1);
      RunStep(s, Nexts(m));
      DrainDown(Apply(s, OpNext), m - 1);
    }
  }

  /**
   * `resumed` can be reached exactly when the high-water mark is at least 2:
   * with a mark of 1 the low-water mark is 0 and no buffer is below it.
   */
  lemma ResumeReachableIff(hwm: nat)
    requires hwm >= 1
    ensures (exists ops :: Count(Run(Fresh(hwm), ops).events, Resumed) > 0) <==> hwm >= 2
  {
    if hwm >= 2 {
      var full, m := Run(Fresh(hwm), Pushes(hwm)), hwm - hwm / 2;
      FillUp(hwm, hwm);
      DrainDown(full, m);
      var low := Run(full, Nexts(m));
      var ops := Pushes(hwm) + Nexts(m) + [OpNext];
      RunAppend(Fresh(hwm), Pushes(hwm) + Nexts(m), [OpNext]);
      RunAppend(Fresh(hwm), Pushes(hwm), Nexts(m));
      assert Run(Fresh(hwm), ops) == Apply(low, OpNext);
      assert Apply(low, OpNext).events == low.events + [Resumed];
      EventAppend(low.events, Resumed);
      assert Count(Run(Fresh(hwm), ops).events, Resumed) > 0;
    } else {
      forall ops ensures Count(Run(Fresh(hwm), ops).events, Resumed) == 0 {
        InitInv(hwm, false);
        RunKept(Fresh(hwm), ops);
      }
    }
  }

  /** A push fires `paused` exactly on the upward crossing, whether or not the stream is backpressured already. */
  lemma PausedIffCrossing(s: State, c: Chunk)
    requires Inv(s)
    ensures Count(PushChunk(s, c).events, Paused) ==
            Count(s.events, Paused) + (if !s.settled && |s.buffered| + 1 == s.hwm then 1 else 0)
  {
    EventAppend(s.events, Paused);
    EventAppend(s.events, Resumed);
    EventAppend(s.events + [Paused], Resumed);
  }

  /** So for every high-water mark `paused` can come twice in a row. */
  lemma PausedRepeats(hwm: nat)
    requires hwm >= 1
    ensures var s := Run(Fresh(hwm), Pushes(hwm) + [OpNext, OpPushChunk(hwm)]);
      s.events == [Paused, Paused]
  {
    var full := Run(Fresh(hwm), Pushes(hwm));
    FillUp(hwm, hwm);
    RunAppend(Fresh(hwm), Pushes(hwm), [OpNext, OpPushChunk(hwm)]);
    var t := Apply(full, OpNext);
    assert Run(full, [OpNext, OpPushChunk(hwm)]) == Run(t, [OpPushChunk(hwm)]) == Apply(t, OpPushChunk(hwm));
  }

  /** `t` comes after `op`: the stream was aborted and that was announced, or `op` is a throw, or both are as before. */
  predicate AbortsOf(s: State, t: State, op: Op) {
    && (s.aborted || op.OpThrow? ==> t.aborted)
    && Count(t.events, Aborted) == Count(s.events, Aborted) + (if t.aborted && !s.aborted && !op.OpThrow? then 1 else 0)
  }

  lemma AbortStep(s: State, op: Op)
    requires s.aborted ==> s.settled
    ensures AbortsOf(s, Apply(s, op), op)
  {
    match op
    case OpPushChunk(c) => PushAborts(s, c);
    case OpPushEnd => EndAborts(s, op);
    case OpPushAbortEnd => EndAborts(s, op);
    case OpPushError(e) => EndAborts(s, op);
    case OpSignalAbort => SignalAborts(s);
    case _ =>
  }

  lemma EndAborts(s: State, op: Op)
    requires (s.aborted ==> s.settled) && (op.OpPushEnd? || op.OpPushAbortEnd? || op.OpPushError?)
    ensures AbortsOf(s, Apply(s, op), op)
  {
    match op
    case OpPushEnd =>
      SettleAborts(s, Ended,
                   s.(settled := true, endPushed := true, info := Some(EndInfo), events := s.events + [Ended]));
    case OpPushAbortEnd =>
      SettleAborts(s, Aborted,
                   s.(settled := true, aborted := true, info := Some(AbortInfo), events := s.events + [Aborted]));
    case OpPushError(e) =>
      SettleAborts(s, Errored(e), s.(settled := true, info := Some(ErrorInfo(e)), events := s.events + [Errored(e)]));
  }

  lemma SignalAborts(s: State)
    ensures AbortsOf(s, SignalAbort(s), OpSignalAbort)
  {
    SettleAborts(s, Aborted, s.(aborted := true, settled := true,
                 info := if s.info.None? then Some(AbortInfo) else s.info, events := s.events + [Aborted]));
  }

  lemma PushAborts(s: State, c: Chunk)
    ensures var t := PushChunk(s, c);
      t.aborted == s.aborted && Count(t.events, Aborted) == Count(s.events, Aborted)
  {
    EventAppend(s.events, Paused);
    var u := s.(buffered := s.buffered + [c], accepted := s.accepted + [c]);
  }

  lemma SettleAborts(s: State, e: Event, u: State)
    requires u.events == s.events + [e]
    ensures Deliver(u).aborted == u.aborted
    ensures Count(Deliver(u).events, Aborted) == Count(s.events, Aborted) + (if e == Aborted then 1 else 0)
  {
    EventAppend(s.events, e);
  }

  /** The `k`-th operation is a throw, and it is what aborts the stream. */
  predicate ThrowAborts(s: State, ops: seq<Op>, k: nat)
    requires k < |ops|
  {
    ops[k].OpThrow? && !Run(s, ops[..k]).aborted
  }

  /**
   * Every abort is announced, except by a throw: in every run the stream is
   * aborted without `stream:aborted` if and only if a `throw()` aborted it.
   */
  lemma {:induction false} SilentAbortIff(hwm: nat, signalAborted: bool, ops: seq<Op>)
    requires hwm >= 1
    ensures var s := Run(Init(hwm, signalAborted), ops);
      s.aborted && Count(s.events, Aborted) == 0
      <==> exists k :: 0 <= k < |ops| && ThrowAborts(Init(hwm, signalAborted), ops, k)
    decreases |ops|
  {
    var start := Init(hwm, signalAborted);
    InitInv(hwm, signalAborted);
    if ops == [] {
      EventAppend([], Aborted);
    } else {
      var n := |ops| - 1;
      SilentAbortIff(hwm, signalAborted, ops[..n]);
      RunKept(start, ops[..n]);
      RunAppend(start, ops[..n], [ops[n]]);
      assert ops[..n] + [ops[n]] == ops && [ops[n]][1..] == [];
      AbortStep(Run(start, ops[..n]), ops[n]);
      ThrowAbortsPush(start, ops);
      SilentStep(Run(start, ops[..n]), Run(start, ops), ops[n]);
    }
  }

  lemma ThrowAbortsPush(s: State, ops: seq<Op>)
    requires ops != []
    ensures var n := |ops| - 1;
      (exists k :: 0 <= k < |ops| && ThrowAborts(s, ops, k))
      <==> (exists k :: 0 <= k < n && ThrowAborts(s, ops[..n], k)) || (ops[n].OpThrow? && !Run(s, ops[..n]).aborted)
  {
    var n := |ops| - 1;
    assert ThrowAborts(s, ops, n) <==> ops[n].OpThrow? && !Run(s, ops[..n]).aborted;
    forall k | 0 <= k < n ensures ThrowAborts(s, ops, k) <==> ThrowAborts(s, ops[..n], k) {
      assert ops[..n][..k] == ops[..k];
    }
  }

  lemma SilentStep(s: State, t: State, op: Op)
    requires EventInv(s) && (s.aborted || op.OpThrow? ==> t.aborted)
    requires Count(t.events, Aborted)
          == Count(s.events, Aborted) + (if t.aborted && !s.aborted && !op.OpThrow? then 1 else 0)
    ensures t.aborted && Count(t.events, Aborted) == 0
            <==> (s.aborted && Count(s.events, Aborted) == 0) || (op.OpThrow? && !s.aborted)
  {
  }

  // ---- What a step emits ----

  /** The events of one step from `s` to `t`, with what they say about the backpressure flag. */
  ghost predicate NewsOf(s: State, t: State, news: seq<Event>) {
    && t.events == s.events + news
    && (|| (news == [] && t.backpressured == s.backpressured)
        || (news == [Paused] && !s.settled && t.backpressured && t.accepted != s.accepted)
        || (news == [Resumed] && s.backpressured && !t.backpressured)
        || (news == [Aborted] && !s.aborted && t.aborted && t.backpressured == s.backpressured)
        || (|news| == 1 && (news[0].Ended? || news[0].Errored?) && !s.settled && t.backpressured == s.backpressured))
  }

  lemma PushEmits(s: State, c: Chunk) returns (news: seq<Event>)
    requires Inv(s)
    ensures NewsOf(s, PushChunk(s, c), news) && (news == [] || news == [Paused])
  {
    var u := s.(buffered := s.buffered + [c], accepted := s.accepted + [c]);
    news := if !s.settled && |s.buffered| < s.hwm <= |u.buffered| then [Paused] else [];
  }

  lemma NextEmits(s: State) returns (news: seq<Event>)
    requires Inv(s)
    ensures NewsOf(s, Next(s), news)
  {
    news := if Next(s).backpressured == s.backpressured then [] else [Resumed];
  }

  lemma SettleEmits(s: State, op: Op) returns (news: seq<Event>)
    requires Inv(s) && !op.OpPushChunk? && !op.OpNext?
    ensures NewsOf(s, Apply(s, op), news)
  {
    match op
    case OpPushEnd =>
      news := if s.settled then [] else [Ended];
    case OpPushAbortEnd =>
      news := if s.settled then [] else [Aborted];
    case OpPushError(e) =>
      news := if s.settled then [] else [Errored(e)];
    case OpReturn => news := if s.aborted then [] else [Aborted];
    case OpThrow(e) => news := [];
    case OpSignalAbort =>
      news := if s.aborted then [] else [Aborted];
  }

  /** What a step accepts, and what it cannot take back. */
  ghost predicate AcceptsOf(s: State, t: State, op: Op) {
    && t.accepted == s.accepted + (if op.OpPushChunk? && !s.settled then [op.chunk] else [])
    && (s.settled ==> t.settled) && (s.aborted ==> t.aborted)
    && (t.settled && !s.settled ==> !op.OpPushChunk? && !op.OpNext?)
    && (t.endPushed <==> s.endPushed || (op.OpPushEnd? && !s.settled))
  }

  lemma DeliverAccepts(s: State)
    ensures var t := Deliver(s);
      t.accepted == s.accepted && t.settled == s.settled && t.aborted == s.aborted && t.endPushed == s.endPushed
  {
  }

  lemma StepAccepts(s: State, op: Op)
    requires s.aborted ==> s.settled
    ensures AcceptsOf(s, Apply(s, op), op)
  {
    match op
    case OpPushChunk(c) =>
      var u := s.(buffered := s.buffered + [c], accepted := s.accepted + [c]);
      DeliverAccepts(u);
      DeliverAccepts(u.(backpressured := true, events := u.events + [Paused]));
    case OpPushEnd =>
      DeliverAccepts(s.(settled := true, endPushed := true, info := Some(EndInfo), events := s.events + [Ended]));
    case OpPushAbortEnd =>
      DeliverAccepts(s.(settled := true, aborted := true, info := Some(AbortInfo), events := s.events + [Aborted]));
    case OpPushError(e) =>
      DeliverAccepts(s.(settled := true, info := Some(ErrorInfo(e)), events := s.events + [Errored(e)]));
    case _ =>
  }

  lemma StepEmits(s: State, op: Op) returns (news: seq<Event>)
    requires Inv(s)
    ensures NewsOf(s, Apply(s, op), news)
  {
    match op
    case OpPushChunk(c) => news := PushEmits(s, c);
    case OpNext => news := NextEmits(s);
    case _ => news := SettleEmits(s, op);
  }

  // ---- The class ----

  /** `Stream`: the fields of the source, and the outside record as ghost fields. */
  class Stream {
    const highWaterMark: nat
    var buffered: seq<Chunk>
    var waiter: bool
    var aborted: bool
    var settled: bool
    var settleInfo: Option<Settlement>
    var endPushed: bool
    var isBackpressured: bool
    ghost var accepted: seq<Chunk>
    ghost var replies: seq<Reply>
    ghost var events: seq<Event>
    ghost var pulls: nat
    ghost var overwritten: nat

    ghost function Abs(): State
      reads this
    {
      State(highWaterMark, buffered, waiter, aborted, settled, settleInfo, endPushed, isBackpressured,
            accepted, replies, events, pulls, overwritten)
    }

    constructor New(hwm: nat)
      ensures Abs() == Fresh(hwm)
    {
      highWaterMark := hwm;
      buffered, waiter, aborted, settled := [], false, false, false;
      settleInfo, endPushed, isBackpressured := None, false, false;
      accepted, replies, events, pulls, overwritten := [], [], [], 0, 0;
    }

    /** The public constructor: a mark that is not positive is refused (null stands for the thrown `RangeError`). */
    static method Create(hwm: int, signalAborted: bool) returns (s: Stream?)
      ensures s == null <==> hwm <= 0
      ensures s != null ==> fresh(s) && s.Abs() == Init(hwm, signalAborted)
    {
      if hwm <= 0 {
        return null;
      }
      s := new Stream.New(hwm);
      if signalAborted {
        s.Abort();
      }
    }

    method MaybeEmitResume()
      modifies this
      ensures Abs() == MaybeResume(old(Abs()))
    {
      if !isBackpressured {
        return;
      }
      var lowWater := highWaterMark / 2;
      if |buffered| < lowWater {
        isBackpressured := false;
        events := events + [Resumed];
      }
    }

    method DeliverIfWaiting()
      modifies this
      ensures Abs() == Deliver(old(Abs()))
    {
      if !waiter {
        return;
      }
      if |buffered| > 0 {
        waiter := false;
        replies := replies + [Yielded(buffered[0])];
        buffered := buffered[1..];
        MaybeEmitResume();
        return;
      }
      if settled && settleInfo.Some? {
        waiter := false;
        var info := settleInfo.value;
        settleInfo := None;
        replies := replies + [if info.ErrorInfo? then Thrown(info.error) else Done];
      }
    }

    method PushChunk(chunk: Chunk)
      modifies this
      ensures Abs() == Apply(old(Abs()), OpPushChunk(chunk))
    {
      if settled || aborted {
        return;
      }
      var wasBelowThreshold := |buffered| < highWaterMark;
      buffered := buffered + [chunk];
      accepted := accepted + [chunk];
      var isAtOrAbove := |buffered| >= highWaterMark;
      if wasBelowThreshold && isAtOrAbove {
        isBackpressured := true;
        events := events + [Paused];
      }
      DeliverIfWaiting();
    }

    method PushEnd()
      modifies this
      ensures Abs() == Apply(old(Abs()), OpPushEnd)
    {
      if settled {
        return;
      }
      settled, endPushed, settleInfo := true, true, Some(EndInfo);
      events := events + [Ended];
      DeliverIfWaiting();
    }

    method PushAbortEnd()
      modifies this
      ensures Abs() == Apply(old(Abs()), OpPushAbortEnd)
    {
      if settled {
        return;
      }
      settled, aborted, settleInfo := true, true, Some(AbortInfo);
      events := events + [Aborted];
      DeliverIfWaiting();
    }

    method PushError(error: Failure)
      modifies this
      ensures Abs() == Apply(old(Abs()), OpPushError(error))
    {
      if settled {
        return;
      }
      settled, settleInfo := true, Some(ErrorInfo(error));
      events := events + [Errored(error)];
      DeliverIfWaiting();
    }

    /** `next()`: the answer when there is one at once, `None` when the pull parks. */
    method Next() returns (reply: Option<Reply>)
      modifies this
      ensures Abs() == Apply(old(Abs()), OpNext)
      ensures reply == None ==> waiter && replies == old(replies)
      ensures reply.Some? ==> replies == old(replies) + [reply.value]
    {
      pulls := pulls + 1;
      if |buffered| > 0 {
        var value := buffered[0];
        buffered := buffered[1..];
        replies := replies + [Yielded(value)];
        MaybeEmitResume();
        return Some(Yielded(value));
      }
      if settled && settleInfo.Some? {
        var info := settleInfo.value;
        settleInfo := None;
        reply := Some(if info.ErrorInfo? then Thrown(info.error) else Done);
        replies := replies + [reply.value];
        return;
      }
      if settled || aborted {
        replies := replies + [Done];
        return Some(Done);
      }
      overwritten := overwritten + (if waiter then 1 else 0);
      waiter := true;
      return None;
    }

    method Return()
      modifies this
      ensures Abs() == Apply(old(Abs()), OpReturn)
    {
      if !aborted {
        aborted := true;
        events := events + [Aborted];
      }
      settled := true;
      if waiter {
        waiter := false;
        replies := replies + [Done];
      }
    }

    method Throw(error: Failure)
      modifies this
      ensures Abs() == Apply(old(Abs()), OpThrow(error))
    {
      aborted, settled, settleInfo := true, true, Some(ErrorInfo(error));
      if waiter {
        waiter := false;
        replies := replies + [Thrown(error)];
      }
    }

    method Abort()
      modifies this
      ensures Abs() == Apply(old(Abs()), OpSignalAbort)
    {
      if aborted {
        return;
      }
      aborted, settled := true, true;
      if settleInfo.None? {
        settleInfo := Some(AbortInfo);
      }
      events := events + [Aborted];
      DeliverIfWaiting();
    }
  }
}
