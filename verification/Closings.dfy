/**
 * Which closing frame a run posts (src/stream-runner.js), and what it makes of
 * the stream at the other end (src/worker-handle.js, src/streaming.js).
 */
module Closings {
  import opened Prelude
  import S = Streams
  import A = Answers
  import W = StreamRunner
  import opened StreamProtocol

  /** This event ends the run with this frame. */
  predicate ClosesWith(w: W.Worker, i: W.Input, f: W.Frame) {
    match f
    case ErrorFrame(e) =>
      (w.phase.Loading? && i == W.Start(Some(e))) || (w.phase.Pulling? && !w.aborted && i == W.Gen(W.Throws(e)))
    case EndFrame(wasAborted) =>
      && w.aborted == wasAborted
      && ((w.phase.Pulling? && i == W.Gen(W.Returns)) || (wasAborted && w.phase.Closing? && i == W.Closed))
    case _ => false
  }

  predicate ClosesAt(inputs: seq<W.Input>, k: nat, f: W.Frame)
    requires k < |inputs|
  {
    ClosesWith(W.Run(W.Idle, inputs[..k]), inputs[k], f)
  }

  lemma ClosingStep(w: W.Worker, i: W.Input, t: W.Worker, f: W.Frame)
    requires W.Inv(w) && t == W.Step(w, i) && W.Terminal(f)
    ensures f in t.posted <==> f in w.posted || ClosesWith(w, i, f)
  {
    W.StepGrows(w, i);
  }

  lemma ClosesPush(inputs: seq<W.Input>, f: W.Frame)
    requires inputs != []
    ensures var n := |inputs| - 1;
      (exists k :: 0 <= k < |inputs| && ClosesAt(inputs, k, f))
      <==> (exists k :: 0 <= k < n && ClosesAt(inputs[..n], k, f))
           || ClosesWith(W.Run(W.Idle, inputs[..n]), inputs[n], f)
  {
    var n := |inputs| - 1;
    assert ClosesAt(inputs, n, f) <==> ClosesWith(W.Run(W.Idle, inputs[..n]), inputs[n], f);
    forall k | 0 <= k < n ensures ClosesAt(inputs, k, f) <==> ClosesAt(inputs[..n], k, f) {
      assert inputs[..n][..k] == inputs[..k];
    }
  }

  /**
   * The closing frame tells how the run ended: over every run an error frame with
   * e was posted if and only if the function threw e at its start or the
   * generator threw e before any abort; a normal end if and only if it returned
   * before any abort; an aborted end if and only if it returned, or was closed, after it.
   */
  lemma {:induction false} ClosingTells(inputs: seq<W.Input>, f: W.Frame)
    requires W.Terminal(f)
    ensures f in W.Run(W.Idle, inputs).posted <==> exists k :: 0 <= k < |inputs| && ClosesAt(inputs, k, f)
    decreases |inputs|
  {
    if inputs != [] {
      var n := |inputs| - 1;
      assert W.Inv(W.Idle);
      ClosingTells(inputs[..n], f);
      W.RunKept(W.Idle, inputs[..n]);
      W.Extend(W.Idle, inputs, n);
      assert inputs[..n + 1] == inputs;
      ClosingStep(W.Run(W.Idle, inputs[..n]), inputs[n], W.Run(W.Idle, inputs), f);
      ClosesPush(inputs, f);
    }
  }

  /**
   * An abort ends the run: from every state of a run under way, whatever step of
   * the generator is pending, the worker is finished when that step and the
   * generator's `return()` are over, and no further chunk was posted.
   */
  lemma AbortEnds(w: W.Worker, step: W.GenStep)
    requires W.Inv(w) && W.Registered(w)
    ensures var t := W.Run(w, [W.Ctl(W.Abort), W.Gen(step), W.Wake, W.Closed]);
      t.phase.Finished? && t.seqNo == w.seqNo
  {
    var a := W.Step(w, W.Ctl(W.Abort));
    var b := W.Step(a, W.Gen(step));
    var c := W.Step(b, W.Wake);
    assert [W.Ctl(W.Abort), W.Gen(step), W.Wake, W.Closed][1..] == [W.Gen(step), W.Wake, W.Closed];
    assert [W.Gen(step), W.Wake, W.Closed][1..] == [W.Wake, W.Closed] && [W.Wake, W.Closed][1..] == [W.Closed];
    assert W.Run(c, [W.Closed]) == W.Step(c, W.Closed);
    assert W.Run(b, [W.Wake, W.Closed]) == W.Run(c, [W.Closed]);
    assert W.Run(a, [W.Gen(step), W.Wake, W.Closed]) == W.Run(b, [W.Wake, W.Closed]);
  }

  /**
   * What the frame makes of an unsettled stream, in every run: a chunk is
   * accepted, and a closing frame settles the stream, frees the slot and is what
   * the consumer is told after every chunk before it: an error frame as that
   * error, an end as done, recorded as an end unless it was aborted.
   */
  lemma FrameArrives(hwm: nat, signalAborted: bool, moves: seq<Move>)
    requires hwm >= 1 && After(hwm, signalAborted, moves).frames != []
    requires !After(hwm, signalAborted, moves).stream.settled
    ensures var n := After(hwm, signalAborted, moves); var m := Step(n, ReceiveFrame); var s, t := n.stream, m.stream;
      match n.frames[0]
      case ChunkFrame(_, c) => t.accepted == s.accepted + [c] && m.slot && !t.settled
      case EndFrame(wasAborted) =>
        !m.slot && t.settled && t.endPushed == !wasAborted && t.aborted == wasAborted && A.ToldNext(s, t, S.Done)
      case ErrorFrame(e) => !m.slot && t.settled && !t.aborted && A.ToldNext(s, t, S.Thrown(e))
  {
    var n := After(hwm, signalAborted, moves);
    Reached(hwm, signalAborted, moves);
    SlotOrFinished(n);
    var op := match n.frames[0]
      case ChunkFrame(_, c) => S.OpPushChunk(c)
      case EndFrame(wasAborted) => if wasAborted then S.OpPushAbortEnd else S.OpPushEnd
      case ErrorFrame(e) => S.OpPushError(e);
    S.StepAccepts(n.stream, op);
    S.AbortStep(n.stream, op);
    if !op.OpPushChunk? {
      A.SettlementTold(n.stream, op);
    }
  }
}
