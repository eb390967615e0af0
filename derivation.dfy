/**
 * The derivation actor's state machine: when an incoming event may step the
 * pipeline, how each step result is classified, and what is emitted on the
 * attributes and reset-request channels.
 */
module Derivation {
  import opened Wrappers
  import opened Protocol
  import opened Derive

  datatype InboundDerivationMessage = NewDataAvailable | SafeHeadUpdated

  datatype DerivationError =
    | PipelineErr(kind: PipelineErrorKind)
    | Yield
    | Sender
    | SignalReceiveFailed
    | L2SafeHeadReceiveFailed

  /** What the safe-head watch channel shows: its value, whether it is unseen, whether the sender is gone. */
  datatype WatchState = WatchState(head: L2BlockInfo, changed: bool, closed: bool)

  /** The outcome of `produce_next_attributes`: its result, the pipeline afterwards,
      whether a reset request was sent and whether `waiting_for_signal` was set. */
  datatype Produced = Produced(
    result: Result<OpAttributesWithParent, DerivationError>,
    pipeline: Pipeline,
    resetRequested: bool,
    waiting: bool)

  /** One turn of the `produce_next_attributes` loop either goes round again or leaves it. */
  datatype Iteration = Continue(pipeline: Pipeline) | Done(outcome: Produced)

  function Leave(result: Result<OpAttributesWithParent, DerivationError>, p: Pipeline): Iteration {
    Done(Produced(result, p, false, false))
  }

  function PipelineAfter(it: Iteration): Pipeline {
    if it.Continue? then it.pipeline else it.outcome.pipeline
  }

  /** The end of a turn: return the oldest prepared attributes if there are any. */
  function NextOrContinue(p: Pipeline): Iteration {
    var (attrs, p') := p.Next();
    if attrs.Some? then Leave(Ok(attrs.value), p') else Continue(p')
  }

  /** The error a step reported, if it reported one. */
  function ErrorOf(s: StepResult): Option<PipelineErrorKind> {
    if s.OriginAdvanceErr? || s.StepFailed? then Some(s.err) else None
  }

  /** One turn of the loop: step the pipeline with the safe head and classify the result. */
  function StepOnce(p: Pipeline, head: L2BlockInfo, resetOpen: bool): (it: Iteration)
    ensures OneStepFrom(p, PipelineAfter(it), head)
    ensures it.Continue? ==> |it.pipeline.script| < |p.script|
  {
    var (step, p1) := p.Step(head);
    match ErrorOf(step)
    case None =>
      if step.AdvancedOrigin? && p1.origin.None? then Leave(Err(PipelineErr(Critical(MissingOrigin))), p1)
      else NextOrContinue(p1)
    case Some(Temporary(e)) =>
      if e.NotEnoughData? then Continue(p1) else Leave(Err(Yield), p1)
    case Some(Critical(e)) =>
      Leave(Err(PipelineErr(Critical(e))), p1)
    case Some(Reset(e)) =>
      match p1.SystemConfigByNumber(head.blockInfo.number)
      case Err(lookup) => Leave(Err(PipelineErr(lookup)), p1)
      case Ok(systemConfig) =>
        if e.HoloceneActivation? then
          if p1.origin.None? then Leave(Err(PipelineErr(Critical(MissingOrigin))), p1)
          else
            var (signalled, p2) := p1.AcceptSignal(ActivationSignal(head, p1.origin.value, Some(systemConfig)));
            if signalled.Err? then Leave(Err(PipelineErr(signalled.error)), p2)
            else NextOrContinue(p2)
        else if IsInteropActive(p1.rollupConfig, head.blockInfo.timestamp) then
          Done(Produced(Err(Yield), p1, false, true))
        else if resetOpen then
          Done(Produced(Err(Yield), p1, true, true))
        else
          Leave(Err(Sender), p1)
  }

  /** `produce_next_attributes`: turn the loop until it is left. */
  function ProduceSpec(p: Pipeline, head: L2BlockInfo, resetOpen: bool): Produced
    decreases |p.script|
  {
    match StepOnce(p, head, resetOpen)
    case Continue(p') => ProduceSpec(p', head, resetOpen)
    case Done(o) => o
  }

  /** The outcome of `process`: its result, the new state, whether the safe head is
      still unseen, and what was sent on the two outbound channels. */
  datatype Processed = Processed(
    result: Result<(), DerivationError>,
    pipeline: Pipeline,
    idle: bool,
    waiting: bool,
    headChanged: bool,
    emitted: seq<OpAttributesWithParent>,
    resetRequested: bool)

  /** `process` on a state with the given pipeline and flags. */
  function ProcessSpec(
    pipeline: Pipeline, idle: bool, waiting: bool, msg: InboundDerivationMessage,
    w: WatchState, elSyncComplete: bool, attributesOpen: bool, resetOpen: bool): Processed
  {
    var untouched := Processed(Ok(()), pipeline, idle, waiting, w.changed, [], false);
    if !elSyncComplete || waiting then untouched
    else if !(idle || msg == SafeHeadUpdated) && w.closed then untouched.(result := Err(L2SafeHeadReceiveFailed))
    else if !(idle || msg == SafeHeadUpdated) && !w.changed then untouched
    else if IsZero(w.head.blockInfo.hash) then untouched
    else
      var o := ProduceSpec(pipeline, w.head, resetOpen);
      match o.result
      case Ok(attrs) =>
        Processed(if attributesOpen then Ok(()) else Err(Sender), o.pipeline, false, o.waiting, false,
                  if attributesOpen then [attrs] else [], o.resetRequested)
      case Err(e) =>
        Processed(if e.Yield? then Ok(()) else Err(e), o.pipeline, e.Yield? || idle, o.waiting, w.changed,
                  [], o.resetRequested)
  }

  /** The events for which `process` steps the pipeline. */
  predicate MayStep(idle: bool, waiting: bool, msg: InboundDerivationMessage, w: WatchState, elSyncComplete: bool) {
    && elSyncComplete
    && !waiting
    && (idle || msg == SafeHeadUpdated || (!w.closed && w.changed))
    && !IsZero(w.head.blockInfo.hash)
  }

  /** The engine's L2 safe head, received over a watch channel. */
  class SafeHeadWatch {
    var head: L2BlockInfo
    var changed: bool
    var closed: bool

    constructor (head: L2BlockInfo, changed: bool, closed: bool)
      ensures this.head == head && this.changed == changed && this.closed == closed
    {
      this.head, this.changed, this.closed := head, changed, closed;
    }

    function State(): WatchState
      reads this
    {
      WatchState(head, changed, closed)
    }

    /** `has_changed`: fails once the sender is gone. */
    function HasChanged(): Result<bool, ()>
      reads this
    {
      if closed then Err(()) else Ok(changed)
    }

    /** `borrow_and_update`: read the value and mark it seen. */
    method BorrowAndUpdate() returns (h: L2BlockInfo)
      modifies this`changed
      ensures h == head && !changed
    {
      h := head;
      changed := false;
    }
  }

  /** The sending half of an outbound channel; `sent` is what the receiver will see. */
  class Outbox<T> {
    var sent: seq<T>
    var closed: bool

    constructor (closed: bool)
      ensures sent == [] && this.closed == closed
    {
      sent, this.closed := [], closed;
    }

    /** Fails, sending nothing, when the receiver has been dropped. */
    method Send(x: T) returns (ok: bool)
      modifies this`sent
      ensures ok == !closed
      ensures sent == if ok then old(sent) + [x] else old(sent)
    {
      ok := !closed;
      if ok {
        sent := sent + [x];
      }
    }
  }

  class DerivationState {
    var pipeline: Pipeline
    /** Derivation has yielded to wait for more data. */
    var derivationIdle: bool
    /** Derivation waits for a signal and processes no event until one arrives. */
    var waitingForSignal: bool

    constructor (pipeline: Pipeline)
      ensures this.pipeline == pipeline && derivationIdle && !waitingForSignal
    {
      this.pipeline := pipeline;
      derivationIdle, waitingForSignal := true, false;
    }

    /** `signal`: hand a signal to the pipeline; a failure is only logged. */
    method HandleSignal(signal: Signal)
      modifies this`pipeline
      ensures pipeline == old(pipeline).AcceptSignal(signal).1
      ensures pipeline.signals == old(pipeline.signals) + [signal]
    {
      var (_, p) := pipeline.AcceptSignal(signal);
      pipeline := p;
    }

    /** The signal branch of the actor's event loop. */
    method ReceiveSignal(received: Option<Signal>) returns (r: Result<(), DerivationError>)
      modifies this`pipeline, this`waitingForSignal
      ensures received.None? ==> r == Err(SignalReceiveFailed) && pipeline == old(pipeline)
                                 && waitingForSignal == old(waitingForSignal)
      ensures received.Some? ==> r == Ok(()) && !waitingForSignal
                                 && pipeline == old(pipeline).AcceptSignal(received.value).1
    {
      if received.None? {
        return Err(SignalReceiveFailed);
      }
      HandleSignal(received.value);
      waitingForSignal := false;
      return Ok(());
    }

    /** `produce_next_attributes`: step the pipeline until it yields attributes or must stop. */
    method ProduceNextAttributes(watch: SafeHeadWatch, resetRequests: Outbox<()>)
      returns (r: Result<OpAttributesWithParent, DerivationError>)
      modifies this`pipeline, this`waitingForSignal, resetRequests`sent
      ensures var o := ProduceSpec(old(pipeline), watch.head, !resetRequests.closed);
        && r == o.result
        && pipeline == o.pipeline
        && waitingForSignal == (old(waitingForSignal) || o.waiting)
        && resetRequests.sent == old(resetRequests.sent) + (if o.resetRequested then [()] else [])
    {
      ghost var resetOpen := !resetRequests.closed;
      while true
        invariant ProduceSpec(pipeline, watch.head, resetOpen) == ProduceSpec(old(pipeline), watch.head, resetOpen)
        invariant waitingForSignal == old(waitingForSignal)
        invariant resetRequests.sent == old(resetRequests.sent)
        decreases |pipeline.script|
      {
        ghost var before := pipeline;
        var l2SafeHead := watch.head;
        var (step, afterStep) := pipeline.Step(l2SafeHead);
        pipeline := afterStep;
        match ErrorOf(step) {
          case None =>
            if step.AdvancedOrigin? && pipeline.origin.None? {
              return Err(PipelineErr(Critical(MissingOrigin)));
            }
          case Some(Temporary(e)) =>
            // NotEnoughData is transient: step again without looking at the queue.
            if e.NotEnoughData? {
              assert StepOnce(before, l2SafeHead, resetOpen) == Continue(pipeline);
              continue;
            }
            return Err(Yield);
          case Some(Critical(e)) =>
            return Err(PipelineErr(Critical(e)));
          case Some(Reset(e)) =>
            var systemConfig := pipeline.SystemConfigByNumber(l2SafeHead.blockInfo.number);
            if systemConfig.Err? {
              return Err(PipelineErr(systemConfig.error));
            }
            if e.HoloceneActivation? {
              if pipeline.origin.None? {
                return Err(PipelineErr(Critical(MissingOrigin)));
              }
              var signal := ActivationSignal(l2SafeHead, pipeline.origin.value, Some(systemConfig.value));
              var (signalled, afterSignal) := pipeline.AcceptSignal(signal);
              pipeline := afterSignal;
              if signalled.Err? {
                return Err(PipelineErr(signalled.error));
              }
            } else {
              // The engine is asked to reset only while interop is inactive.
              if !IsInteropActive(pipeline.rollupConfig, l2SafeHead.blockInfo.timestamp) {
                var sent := resetRequests.Send(());
                if !sent {
                  return Err(Sender);
                }
              }
              waitingForSignal := true;
              return Err(Yield);
            }
        }
        var (attrs, afterNext) := pipeline.Next();
        pipeline := afterNext;
        if attrs.Some? {
          return Ok(attrs.value);
        }
        assert StepOnce(before, l2SafeHead, resetOpen) == Continue(pipeline);
      }
    }

    /** `process`: decide whether the event may step the pipeline and pass on what it produces. */
    method Process(
      msg: InboundDerivationMessage, watch: SafeHeadWatch, elSyncComplete: bool,
      attributesOut: Outbox<OpAttributesWithParent>, resetRequests: Outbox<()>)
      returns (r: Result<(), DerivationError>)
      modifies this, watch`changed, attributesOut`sent, resetRequests`sent
      ensures var o := ProcessSpec(old(pipeline), old(derivationIdle), old(waitingForSignal), msg,
                                   old(watch.State()), elSyncComplete, !attributesOut.closed, !resetRequests.closed);
        && r == o.result
        && pipeline == o.pipeline
        && derivationIdle == o.idle
        && waitingForSignal == o.waiting
        && watch.changed == o.headChanged
        && attributesOut.sent == old(attributesOut.sent) + o.emitted
        && resetRequests.sent == old(resetRequests.sent) + (if o.resetRequested then [()] else [])
    {
      // Only derive once the engine has finished syncing, and never while a signal is awaited.
      if !elSyncComplete {
        return Ok(());
      } else if waitingForSignal {
        return Ok(());
      }
      // A busy pipeline is stepped on new data only once the safe head has moved.
      if !(derivationIdle || msg == SafeHeadUpdated) {
        match watch.HasChanged() {
          case Ok(true) =>
          case Ok(false) => return Ok(());
          case Err(_) => return Err(L2SafeHeadReceiveFailed);
        }
      }
      var engineSafeHead := watch.head;
      if IsZero(engineSafeHead.blockInfo.hash) {
        return Ok(());
      }
      var produced := ProduceNextAttributes(watch, resetRequests);
      var payloadAttrs;
      match produced {
        case Ok(attrs) =>
          payloadAttrs := attrs;
        case Err(e) =>
          if e.Yield? {
            derivationIdle := true;
            return Ok(());
          }
          return Err(e);
      }
      derivationIdle := false;
      var _ := watch.BorrowAndUpdate();
      var sent := attributesOut.Send(payloadAttrs);
      if !sent {
        return Err(Sender);
      }
      return Ok(());
    }
  }
}
