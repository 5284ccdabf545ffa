/**
 * What the pulls of a stream are told (src/streaming.js), from the calls alone.
 * The chunks come first, in order (`Streams.ExactDelivery`); this module says
 * which answer without a chunk comes then, and which come after it.
 */
module Answers {
  import opened Prelude
  import opened Streams

  /** The first call that settles the stream decides its verdict; a `throw(e)` always does. */
  function Judge(verdict: Option<Reply>, op: Op): Option<Reply> {
    match op
    case OpThrow(e) => Some(Thrown(e))
    case OpPushChunk(_) => verdict
    case OpNext => verdict
    case OpPushError(e) => if verdict.Some? then verdict else Some(Thrown(e))
    case _ => if verdict.Some? then verdict else Some(Done)
  }

  function Verdict(signalAborted: bool, ops: seq<Op>): Option<Reply> {
    if ops == [] then (if signalAborted then Some(Done) else None)
    else Judge(Verdict(signalAborted, ops[..|ops| - 1]), ops[|ops| - 1])
  }

  /** The error of a `throw(e)` that no pull has been made after. */
  function Rethrow(ops: seq<Op>): Option<Failure> {
    if ops == [] then None
    else
      match ops[|ops| - 1]
      case OpThrow(e) => Some(e)
      case OpNext => None
      case _ => Rethrow(ops[..|ops| - 1])
  }

  /** The state keeps the verdict until it is given, and then the error of a later throw. */
  ghost predicate Owes(s: State, verdict: Option<Reply>, again: Option<Failure>) {
    && (s.settled <==> verdict.Some?)
    && (!TerminalSeen(s.replies) && s.settled ==>
          verdict == Some(if s.info.Some? && s.info.value.ErrorInfo? then Thrown(s.info.value.error) else Done))
    && (TerminalSeen(s.replies) ==>
          again == (if s.info.Some? && s.info.value.ErrorInfo? then Some(s.info.value.error) else None))
    && (again.Some? ==> s.settled)
  }

  lemma ReplyAppend(replies: seq<Reply>, r: Reply)
    ensures TerminalSeen(replies + [r]) <==> TerminalSeen(replies) || !r.Yielded?
  {
    assert (replies + [r])[..|replies|] == replies;
  }

  /** One call from `s` to `t`: an answer, if any, is a chunk or what was owed. */
  ghost predicate Told(s: State, t: State, verdict: Option<Reply>, again: Option<Failure>) {
    || t.replies == s.replies
    || (exists c :: t.replies == s.replies + [Yielded(c)] && !TerminalSeen(s.replies))
    || (!TerminalSeen(s.replies) && verdict.Some? && t.replies == s.replies + [verdict.value])
    || (TerminalSeen(s.replies) && t.replies == s.replies + [if again.Some? then Thrown(again.value) else Done])
  }

  function Later(again: Option<Failure>, op: Op): Option<Failure> {
    match op
    case OpThrow(e) => Some(e)
    case OpNext => None
    case _ => again
  }

  /** A chunk or a verdict is what delivering to a parked pull can answer. */
  lemma DeliverTells(s: State, u: State, t: State, verdict: Option<Reply>, again: Option<Failure>)
    requires Inv(s) && !s.settled && u.replies == s.replies && t == Deliver(u) && u.waiting == s.waiting
    requires s.waiting && u.buffered != [] ==> !u.settled
    requires !u.settled ==> u.info.None?
    requires u.settled <==> verdict.Some?
    requires u.settled ==> u.info.Some?
    requires u.settled ==>
               verdict.value == if u.info.value.ErrorInfo? then Thrown(u.info.value.error) else Done
    requires again.None? && !TerminalSeen(s.replies)
    ensures Owes(t, verdict, again) && Told(s, t, verdict, again)
  {
    if u.waiting && u.buffered != [] {
      ReplyAppend(s.replies, Yielded(u.buffered[0]));
    } else if u.waiting && u.settled {
      ReplyAppend(s.replies, verdict.value);
    }
  }

  lemma PushTells(s: State, op: Op, verdict: Option<Reply>, again: Option<Failure>)
    requires Inv(s) && Owes(s, verdict, again)
    requires op.OpPushChunk? || op.OpPushEnd? || op.OpPushAbortEnd? || op.OpPushError?
    ensures Owes(Apply(s, op), Judge(verdict, op), again) && Told(s, Apply(s, op), Judge(verdict, op), again)
  {
    var t := Apply(s, op);
    if !s.settled {
      match op
      case OpPushChunk(c) =>
        var u := s.(buffered := s.buffered + [c], accepted := s.accepted + [c]);
        DeliverTells(s, if |s.buffered| < s.hwm <= |u.buffered|
                        then u.(backpressured := true, events := u.events + [Paused]) else u, t, None, again);
      case OpPushEnd =>
        DeliverTells(s, s.(settled := true, endPushed := true, info := Some(EndInfo), events := s.events + [Ended]),
                     t, Some(Done), again);
      case OpPushAbortEnd =>
        DeliverTells(s, s.(settled := true, aborted := true, info := Some(AbortInfo), events := s.events + [Aborted]),
                     t, Some(Done), again);
      case OpPushError(e) =>
        DeliverTells(s, s.(settled := true, info := Some(ErrorInfo(e)), events := s.events + [Errored(e)]),
                     t, Some(Thrown(e)), again);
    }
  }

  lemma PullTells(s: State, verdict: Option<Reply>, again: Option<Failure>)
    requires Inv(s) && Owes(s, verdict, again)
    ensures Owes(Next(s), verdict, None) && Told(s, Next(s), verdict, again)
  {
    if s.buffered != [] {
      ReplyAppend(s.replies, Yielded(s.buffered[0]));
    } else if s.settled {
      ReplyAppend(s.replies, if s.info.Some? then Answer(s.info.value) else Done);
    }
  }

  lemma StopTells(s: State, op: Op, verdict: Option<Reply>, again: Option<Failure>)
    requires Inv(s) && Owes(s, verdict, again) && (op.OpReturn? || op.OpThrow? || op.OpSignalAbort?)
    ensures Owes(Apply(s, op), Judge(verdict, op), Later(again, op))
    ensures Told(s, Apply(s, op), Judge(verdict, op), again)
  {
    ReplyAppend(s.replies, Done);
    if op.OpThrow? {
      ReplyAppend(s.replies, Thrown(op.error));
    }
  }

  lemma CallTells(s: State, op: Op, verdict: Option<Reply>, again: Option<Failure>)
    requires Inv(s) && Owes(s, verdict, again)
    ensures Owes(Apply(s, op), Judge(verdict, op), Later(again, op))
    ensures Told(s, Apply(s, op), Judge(verdict, op), again)
  {
    match op
    case OpNext => PullTells(s, verdict, again);
    case OpReturn => StopTells(s, op, verdict, again);
    case OpThrow(e) => StopTells(s, op, verdict, again);
    case OpSignalAbort => StopTells(s, op, verdict, again);
    case _ => PushTells(s, op, verdict, again);
  }

  // ---- Whole runs ----

  lemma InitOwes(hwm: nat, signalAborted: bool)
    ensures Owes(Init(hwm, signalAborted), if signalAborted then Some(Done) else None, None)
  {
  }

  lemma {:induction false} RunOwes(hwm: nat, signalAborted: bool, ops: seq<Op>)
    requires hwm >= 1
    ensures var s := Run(Init(hwm, signalAborted), ops);
      Inv(s) && Owes(s, Verdict(signalAborted, ops), Rethrow(ops))
    decreases |ops|
  {
    var start := Init(hwm, signalAborted);
    InitInv(hwm, signalAborted);
    if ops == [] {
      InitOwes(hwm, signalAborted);
    } else {
      var n := |ops| - 1;
      RunOwes(hwm, signalAborted, ops[..n]);
      RunKept(start, ops);
      RunSnoc(start, ops);
      CallTells(Run(start, ops[..n]), ops[n], Verdict(signalAborted, ops[..n]), Rethrow(ops[..n]));
    }
  }

  lemma RunSnoc(s: State, ops: seq<Op>)
    requires ops != []
    ensures Run(s, ops) == Apply(Run(s, ops[..|ops| - 1]), ops[|ops| - 1])
  {
    var n := |ops| - 1;
    assert ops == ops[..n] + [ops[n]] && [ops[n]][1..] == [];
    RunAppend(s, ops[..n], [ops[n]]);
  }

  /**
   * Every answer of every run. A call answers at most one pull: with a chunk
   * before the first answer without one, which is the verdict, and after it
   * with the error of a `throw(e)` that no pull was made after, else with done.
   */
  lemma EveryAnswer(hwm: nat, signalAborted: bool, ops: seq<Op>)
    requires hwm >= 1 && ops != []
    ensures var n := |ops| - 1; var start := Init(hwm, signalAborted);
      Told(Run(start, ops[..n]), Run(start, ops), Verdict(signalAborted, ops), Rethrow(ops[..n]))
  {
    var n := |ops| - 1;
    var start := Init(hwm, signalAborted);
    RunOwes(hwm, signalAborted, ops[..n]);
    RunSnoc(start, ops);
    CallTells(Run(start, ops[..n]), ops[n], Verdict(signalAborted, ops[..n]), Rethrow(ops[..n]));
  }

  /** The answers that hand out these chunks. */
  function Yields(chunks: seq<Chunk>): seq<Reply> {
    if chunks == [] then [] else [Yielded(chunks[0])] + Yields(chunks[1..])
  }

  /** The stream is settled and has not said so to any pull. */
  ghost predicate Pays(s: State, verdict: Reply, again: Option<Failure>) {
    Inv(s) && s.settled && !TerminalSeen(s.replies) && Owes(s, Some(verdict), again)
  }

  lemma PullChunk(s: State, t: State, verdict: Reply, again: Option<Failure>)
    requires Pays(s, verdict, again)
    requires s.buffered != [] && t == Next(s)
    ensures Pays(t, verdict, None)
    ensures t.replies == s.replies + [Yielded(s.buffered[0])] && t.buffered == s.buffered[1..]
  {
    StepKept(s, OpNext);
    PullTells(s, Some(verdict), again);
    ReplyAppend(s.replies, Yielded(s.buffered[0]));
  }

  lemma {:induction false} DrainsTo(s: State, verdict: Reply, again: Option<Failure>) returns (done: State)
    requires Pays(s, verdict, again)
    ensures done == Run(s, Nexts(|s.buffered| + 1))
    ensures done.replies == s.replies + Yields(s.buffered) + [verdict]
    decreases |s.buffered|
  {
    var t := Next(s);
    FirstPull(s, |s.buffered|, t);
    if s.buffered == [] {
      done := Run(t, Nexts(0));
      LastPull(s, verdict, again);
    } else {
      PullChunk(s, t, verdict, again);
      done := DrainsTo(t, verdict, None);
      FrontYield(s.replies, s.buffered, verdict, done.replies);
    }
  }

  lemma FirstPull(s: State, n: nat, t: State)
    requires t == Apply(s, OpNext)
    ensures Run(s, Nexts(n + 1)) == Run(t, Nexts(n))
  {
    assert Nexts(n + 1)[0] == OpNext && Nexts(n + 1)[1..] == Nexts(n);
    RunStep(s, Nexts(n + 1));
  }

  lemma FrontYield(replies: seq<Reply>, chunks: seq<Chunk>, verdict: Reply, all: seq<Reply>)
    requires chunks != [] && all == replies + [Yielded(chunks[0])] + Yields(chunks[1..]) + [verdict]
    ensures all == replies + Yields(chunks) + [verdict]
  {
  }

  lemma LastPull(s: State, verdict: Reply, again: Option<Failure>)
    requires s.buffered == [] && Pays(s, verdict, again)
    ensures Run(Next(s), Nexts(0)).replies == s.replies + [verdict]
  {
    assert Run(Next(s), Nexts(0)) == Next(s);
  }

  /**
   * Nothing is lost when a stream settles: a run is settled if and only if some
   * call gave it a verdict, and then pulls get every chunk still buffered, in
   * order, and the verdict next: the error of a failed stream reaches its consumer.
   */
  lemma VerdictReached(hwm: nat, signalAborted: bool, ops: seq<Op>)
    requires hwm >= 1
    ensures var s := Run(Init(hwm, signalAborted), ops); var verdict := Verdict(signalAborted, ops);
      && (s.settled <==> verdict.Some?)
      && (s.settled && !TerminalSeen(s.replies) ==>
            Run(s, Nexts(|s.buffered| + 1)).replies == s.replies + Yields(s.buffered) + [verdict.value])
  {
    RunOwes(hwm, signalAborted, ops);
    var s := Run(Init(hwm, signalAborted), ops);
    if s.settled && !TerminalSeen(s.replies) {
      var done := DrainsTo(s, Verdict(signalAborted, ops).value, Rethrow(ops));
    }
  }

  /** What a settlement of `s`, now `t`, is told as: to the parked pull at once, or to one after the buffer. */
  ghost predicate ToldNext(s: State, t: State, verdict: Reply) {
    if s.waiting then t.replies == s.replies + [verdict]
    else Run(t, Nexts(|s.buffered| + 1)).replies == s.replies + Yields(s.buffered) + [verdict]
  }

  /** An error that finds the stream unsettled is what its consumer is told, and an end or an abort is told as done. */
  lemma SettlementTold(s: State, op: Op)
    requires Inv(s) && !s.settled && (op.OpPushEnd? || op.OpPushAbortEnd? || op.OpPushError?)
    ensures ToldNext(s, Apply(s, op), if op.OpPushError? then Thrown(op.error) else Done)
  {
    StepKept(s, op);
    PushTells(s, op, None, None);
    if !s.waiting {
      var done := DrainsTo(Apply(s, op), if op.OpPushError? then Thrown(op.error) else Done, None);
    }
  }

  /** A `throw(e)` that answers a parked pull answers the next pull too: the same error comes twice. */
  lemma ThrowsTwice(s: State, e: Failure)
    requires Inv(s) && s.waiting
    ensures Run(s, [OpThrow(e), OpNext]).replies == s.replies + [Thrown(e), Thrown(e)]
  {
    var t := Throw(s, e);
    assert [OpThrow(e), OpNext][1..] == [OpNext];
    assert Run(s, [OpThrow(e), OpNext]) == Run(t, [OpNext]) == Next(t);
  }

  // ---- The events of a settlement ----

  /** The call that settles the stream; an aborted signal settles it when it is made. */
  function Settler(signalAborted: bool, ops: seq<Op>): Option<Op> {
    if ops == [] then (if signalAborted then Some(OpSignalAbort) else None)
    else
      var before, op := Settler(signalAborted, ops[..|ops| - 1]), ops[|ops| - 1];
      if before.Some? || op.OpPushChunk? || op.OpNext? then before else Some(op)
  }

  /** The end and error events so far are those of the settler. */
  ghost predicate Announces(s: State, settler: Option<Op>) {
    && (s.settled <==> settler.Some?)
    && (Ended in s.events <==> settler == Some(OpPushEnd))
    && (forall e :: Errored(e) in s.events <==> settler == Some(OpPushError(e)))
  }

  /** The events of a step that is neither an end nor an error event. */
  ghost predicate Quiet(s: State, t: State) {
    && t.settled == s.settled
    && (t.events == s.events || t.events == s.events + [Paused] || t.events == s.events + [Resumed])
  }

  lemma PullQuiet(s: State)
    ensures Quiet(s, Next(s))
  {
  }

  lemma PushQuiet(s: State, c: Chunk)
    requires Inv(s)
    ensures Quiet(s, PushChunk(s, c))
  {
    var news := PushEmits(s, c);
    StepAccepts(s, OpPushChunk(c));
  }

  /** Neither a chunk nor a pull settles anything. */
  lemma QuietAnnounces(s: State, t: State, settler: Option<Op>)
    requires Announces(s, settler) && Quiet(s, t)
    ensures Announces(t, settler)
  {
  }

  lemma AnnounceStep(s: State, op: Op, t: State, settler: Option<Op>)
    requires Inv(s) && Announces(s, settler) && t == Apply(s, op)
    ensures Announces(t, if settler.Some? || op.OpPushChunk? || op.OpNext? then settler else Some(op))
  {
    if op.OpPushChunk? || op.OpNext? {
      PullQuiet(s);
      if op.OpPushChunk? { PushQuiet(s, op.chunk); }
      QuietAnnounces(s, t, settler);
    }
  }

  /**
   * The events agree with the verdict: in every run `stream:end` was emitted if
   * and only if a `pushEnd` settled the stream, and `stream:error` with e if and
   * only if a `pushError(e)` did.
   */
  lemma {:induction false} EventsTell(hwm: nat, signalAborted: bool, ops: seq<Op>)
    requires hwm >= 1
    ensures Announces(Run(Init(hwm, signalAborted), ops), Settler(signalAborted, ops))
    decreases |ops|
  {
    var start := Init(hwm, signalAborted);
    InitInv(hwm, signalAborted);
    if ops != [] {
      var n := |ops| - 1;
      EventsTell(hwm, signalAborted, ops[..n]);
      RunKept(start, ops[..n]);
      RunSnoc(start, ops);
      AnnounceStep(Run(start, ops[..n]), ops[n], Run(start, ops), Settler(signalAborted, ops[..n]));
    }
  }
}
