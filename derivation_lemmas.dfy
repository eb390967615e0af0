/** What the derivation actor's transitions guarantee. */
module DerivationLemmas {
  import opened Wrappers
  import opened Protocol
  import opened Derive
  import opened Derivation

  /** The attributes a run of steps pushes onto the queue, in order. */
  function PreparedBy(steps: seq<StepResult>): seq<OpAttributesWithParent> {
    if steps == [] then []
    else (if steps[0].PreparedAttributes? then [steps[0].attributes] else []) + PreparedBy(steps[1..])
  }

  lemma {:induction false} PreparedByConcat(a: seq<StepResult>, b: seq<StepResult>)
    ensures PreparedBy(a + b) == PreparedBy(a) + PreparedBy(b)
  {
    if a == [] {
      assert a + b == b;
    } else {
      assert (a + b)[0] == a[0] && (a + b)[1..] == a[1..] + b;
      PreparedByConcat(a[1..], b);
    }
  }

  /** The attributes a run of `produce_next_attributes` returned, as a sequence of at most one. */
  function Taken(o: Produced): seq<OpAttributesWithParent> {
    if o.result.Ok? then [o.result.value] else []
  }

  /** The script entries a run consumed. */
  function Consumed(p: Pipeline, q: Pipeline): seq<StepResult>
    requires |q.script| <= |p.script|
  {
    p.script[..|p.script| - |q.script|]
  }

  /** Every call consumes a prefix of the script. */
  lemma {:induction false} ProduceSuffix(p: Pipeline, head: L2BlockInfo, resetOpen: bool)
    ensures var o := ProduceSpec(p, head, resetOpen).pipeline;
      |o.script| <= |p.script| && o.script == p.script[|p.script| - |o.script|..]
    decreases |p.script|
  {
    var it := StepOnce(p, head, resetOpen);
    if it.Continue? {
      var q := it.pipeline;
      ProduceSuffix(q, head, resetOpen);
      var o := ProduceSpec(q, head, resetOpen).pipeline;
      assert o.script == p.script[1..][|q.script| - |o.script|..];
    }
  }

  /**
   * Every call steps the pipeline at least once and only ever with the current safe
   * head, and leaves the configuration alone.
   */
  lemma {:induction false} ProduceShape(p: Pipeline, head: L2BlockInfo, resetOpen: bool)
    ensures var o := ProduceSpec(p, head, resetOpen).pipeline;
      && SameSetup(p, o)
      && |o.stepped| > |p.stepped|
      && o.stepped[..|p.stepped|] == p.stepped
      && (forall i :: |p.stepped| <= i < |o.stepped| ==> o.stepped[i] == head)
    decreases |p.script|
  {
    var it := StepOnce(p, head, resetOpen);
    if it.Continue? {
      var q := it.pipeline;
      ProduceShape(q, head, resetOpen);
      var o := ProduceSpec(q, head, resetOpen).pipeline;
      assert o.stepped[..|p.stepped|] == o.stepped[..|q.stepped|][..|p.stepped|];
    }
  }

  lemma ConsumedSplit(p: Pipeline, q: Pipeline, o: Pipeline)
    requires p.script != [] && q.script == p.script[1..]
    requires |o.script| <= |q.script| && o.script == q.script[|q.script| - |o.script|..]
    ensures |o.script| <= |p.script|
    ensures Consumed(p, o) == Consumed(p, q) + Consumed(q, o)
  {
    assert Consumed(p, q) == [p.script[0]];
    assert Consumed(q, o) == p.script[1..|p.script| - |o.script|];
  }

  /** One turn keeps the queue in order: what it pops is the oldest queued value. */
  lemma StepQueue(p: Pipeline, head: L2BlockInfo, resetOpen: bool)
    ensures var it := StepOnce(p, head, resetOpen);
      var q := PipelineAfter(it);
      && Consumed(p, q) == (if p.script == [] then [] else [p.script[0]])
      && (it.Continue? ==> p.prepared + PreparedBy(Consumed(p, q)) == q.prepared)
      && (it.Done? ==> p.prepared + PreparedBy(Consumed(p, q)) == Taken(it.outcome) + q.prepared)
  {
    if p.script != [] {
      var s := p.script[0];
      assert PreparedBy([s]) == if s.PreparedAttributes? then [s.attributes] else [];
    }
  }

  /**
   * No attributes are lost or duplicated: the queue before the call plus everything the
   * consumed steps prepared equals the returned attributes followed by the queue after.
   * So the call returns the oldest attributes available, the first `Some` of `next`.
   */
  lemma {:induction false} ProduceKeepsQueueOrder(p: Pipeline, head: L2BlockInfo, resetOpen: bool)
    ensures var o := ProduceSpec(p, head, resetOpen);
      && |o.pipeline.script| <= |p.script|
      && p.prepared + PreparedBy(Consumed(p, o.pipeline)) == Taken(o) + o.pipeline.prepared
    decreases |p.script|
  {
    ProduceSuffix(p, head, resetOpen);
    var it := StepOnce(p, head, resetOpen);
    StepQueue(p, head, resetOpen);
    if it.Continue? {
      var q := it.pipeline;
      var o := ProduceSpec(q, head, resetOpen);
      ProduceSuffix(q, head, resetOpen);
      ProduceKeepsQueueOrder(q, head, resetOpen);
      ConsumedSplit(p, q, o.pipeline);
      PreparedByConcat(Consumed(p, q), Consumed(q, o.pipeline));
      QueueChain(p.prepared, PreparedBy(Consumed(p, q)), PreparedBy(Consumed(q, o.pipeline)),
                 q.prepared, Taken(o), o.pipeline.prepared);
    }
  }

  lemma QueueChain<T>(before: seq<T>, first: seq<T>, rest: seq<T>, middle: seq<T>, taken: seq<T>, after: seq<T>)
    requires before + first == middle && middle + rest == taken + after
    ensures before + (first + rest) == taken + after
  {
    assert before + (first + rest) == (before + first) + rest;
  }

  /**
   * `waiting_for_signal` is set only together with a yield; a reset request is sent
   * exactly when the flag is set while interop is inactive at the safe head's time,
   * and only over an open channel.
   */
  lemma {:induction false} ProduceWaiting(p: Pipeline, head: L2BlockInfo, resetOpen: bool)
    ensures var o := ProduceSpec(p, head, resetOpen);
      && (o.waiting ==> o.result == Err(Yield))
      && (o.resetRequested <==> o.waiting && !IsInteropActive(p.rollupConfig, head.blockInfo.timestamp))
      && (o.resetRequested ==> resetOpen)
    decreases |p.script|
  {
    var it := StepOnce(p, head, resetOpen);
    if it.Continue? {
      ProduceWaiting(it.pipeline, head, resetOpen);
    }
  }

  /** The only signals sent while producing are activation signals for the current safe head. */
  lemma {:induction false} ProduceSignals(p: Pipeline, head: L2BlockInfo, resetOpen: bool)
    ensures var o := ProduceSpec(p, head, resetOpen).pipeline;
      && |o.signals| >= |p.signals|
      && o.signals[..|p.signals|] == p.signals
      && (forall i :: |p.signals| <= i < |o.signals| ==>
            o.signals[i].ActivationSignal? && o.signals[i].l2SafeHead == head)
    decreases |p.script|
  {
    var it := StepOnce(p, head, resetOpen);
    if it.Continue? {
      var q := it.pipeline;
      ProduceSignals(q, head, resetOpen);
      var o := ProduceSpec(q, head, resetOpen).pipeline;
      assert o.signals[..|p.signals|] == o.signals[..|q.signals|][..|p.signals|];
    }
  }

  /** How one step result is classified. */
  lemma StepClassification(p: Pipeline, head: L2BlockInfo, resetOpen: bool)
    requires p.script != []
    ensures var s := p.script[0];
      var q := p.Step(head).1;
      var it := StepOnce(p, head, resetOpen);
      && (ErrorOf(s) == Some(Temporary(NotEnoughData)) ==> it == Continue(q))
      && (ErrorOf(s).Some? && ErrorOf(s).value.Temporary? && !ErrorOf(s).value.error.NotEnoughData? ==>
            it == Done(Produced(Err(Yield), q, false, false)))
      && (ErrorOf(s).Some? && ErrorOf(s).value.Critical? ==>
            it == Done(Produced(Err(PipelineErr(ErrorOf(s).value)), q, false, false)))
      && (s == AdvancedOrigin(None) ==>
            it == Done(Produced(Err(PipelineErr(Critical(MissingOrigin))), q, false, false)))
      && (s.PreparedAttributes? ==>
            it == Done(Produced(Ok((p.prepared + [s.attributes])[0]), q.(prepared := q.prepared[1..]), false, false)))
  {
  }

  /** A reset other than Holocene activation sets the flag and yields; the engine is asked to reset only without interop. */
  lemma ResetClassification(p: Pipeline, head: L2BlockInfo, resetOpen: bool)
    requires p.script != [] && ErrorOf(p.script[0]).Some? && ErrorOf(p.script[0]).value.Reset?
    requires !ErrorOf(p.script[0]).value.reset.HoloceneActivation?
    requires head.blockInfo.number in p.systemConfigs
    ensures var it := StepOnce(p, head, resetOpen);
      var interop := IsInteropActive(p.rollupConfig, head.blockInfo.timestamp);
      && it.Done?
      && (interop ==> it.outcome.result == Err(Yield) && it.outcome.waiting && !it.outcome.resetRequested)
      && (!interop && resetOpen ==> it.outcome.result == Err(Yield) && it.outcome.waiting && it.outcome.resetRequested)
      && (!interop && !resetOpen ==> it.outcome.result == Err(Sender) && !it.outcome.waiting && !it.outcome.resetRequested)
  {
  }

  /** Holocene activation signals the pipeline and goes on stepping, without setting the flag. */
  lemma HoloceneActivationClassification(p: Pipeline, head: L2BlockInfo, resetOpen: bool)
    requires p.script != [] && ErrorOf(p.script[0]) == Some(Reset(HoloceneActivation))
    requires head.blockInfo.number in p.systemConfigs && p.origin.Some? && p.signalFailure.None?
    ensures var it := StepOnce(p, head, resetOpen);
      var signal := ActivationSignal(head, p.origin.value, Some(p.systemConfigs[head.blockInfo.number]));
      && PipelineAfter(it).signals == p.signals + [signal]
      && (it.Done? ==> it.outcome.result.Ok? && !it.outcome.waiting && !it.outcome.resetRequested)
      && (it.Continue? <==> p.prepared == [])
  {
  }

  /** `process` does nothing while EL sync is incomplete or a signal is awaited. */
  lemma NotReadyIgnored(
    pipeline: Pipeline, idle: bool, waiting: bool, msg: InboundDerivationMessage,
    w: WatchState, elSyncComplete: bool, attributesOpen: bool, resetOpen: bool)
    requires !elSyncComplete || waiting
    ensures ProcessSpec(pipeline, idle, waiting, msg, w, elSyncComplete, attributesOpen, resetOpen)
            == Processed(Ok(()), pipeline, idle, waiting, w.changed, [], false)
  {
  }

  /** A busy pipeline is not stepped on new data unless the safe head changed; a closed watch is an error. */
  lemma BusyNeedsSafeHeadChange(
    pipeline: Pipeline, waiting: bool, w: WatchState, attributesOpen: bool, resetOpen: bool)
    requires !waiting && (w.closed || !w.changed)
    ensures ProcessSpec(pipeline, false, waiting, NewDataAvailable, w, true, attributesOpen, resetOpen)
            == Processed(if w.closed then Err(L2SafeHeadReceiveFailed) else Ok(()), pipeline, false, waiting,
                         w.changed, [], false)
  {
  }

  /** A zero safe-head hash never steps the pipeline and sends nothing. */
  lemma ZeroHashNeverSteps(
    pipeline: Pipeline, idle: bool, waiting: bool, msg: InboundDerivationMessage,
    w: WatchState, elSyncComplete: bool, attributesOpen: bool, resetOpen: bool)
    requires IsZero(w.head.blockInfo.hash)
    ensures var o := ProcessSpec(pipeline, idle, waiting, msg, w, elSyncComplete, attributesOpen, resetOpen);
      o.pipeline == pipeline && o.idle == idle && o.waiting == waiting && o.headChanged == w.changed
      && o.emitted == [] && !o.resetRequested
  {
  }

  /** The pipeline is stepped exactly for the events `MayStep` admits, and only with the watched safe head. */
  lemma StepsExactlyWhenAllowed(
    pipeline: Pipeline, idle: bool, waiting: bool, msg: InboundDerivationMessage,
    w: WatchState, elSyncComplete: bool, attributesOpen: bool, resetOpen: bool)
    ensures var o := ProcessSpec(pipeline, idle, waiting, msg, w, elSyncComplete, attributesOpen, resetOpen);
      && (o.pipeline.stepped != pipeline.stepped <==> MayStep(idle, waiting, msg, w, elSyncComplete))
      && |o.pipeline.stepped| >= |pipeline.stepped|
      && o.pipeline.stepped[..|pipeline.stepped|] == pipeline.stepped
      && (forall i :: |pipeline.stepped| <= i < |o.pipeline.stepped| ==> o.pipeline.stepped[i] == w.head)
  {
    var o := ProcessSpec(pipeline, idle, waiting, msg, w, elSyncComplete, attributesOpen, resetOpen);
    if MayStep(idle, waiting, msg, w, elSyncComplete) {
      ProduceShape(pipeline, w.head, resetOpen);
    } else {
      assert o.pipeline == pipeline;
    }
  }

  /**
   * Produced attributes: exactly the oldest available attributes are sent (when the
   * channel is open), derivation is marked busy and the safe head seen.
   */
  lemma ProducedAttributesSent(
    pipeline: Pipeline, idle: bool, msg: InboundDerivationMessage,
    w: WatchState, attributesOpen: bool, resetOpen: bool)
    requires MayStep(idle, false, msg, w, true)
    requires ProduceSpec(pipeline, w.head, resetOpen).result.Ok?
    ensures var o := ProcessSpec(pipeline, idle, false, msg, w, true, attributesOpen, resetOpen);
      && !o.idle && !o.headChanged && !o.waiting && !o.resetRequested
      && |o.pipeline.script| <= |pipeline.script|
      && (var queue := pipeline.prepared + PreparedBy(Consumed(pipeline, o.pipeline));
          attributesOpen ==> o.result == Ok(()) && |queue| > 0 && o.emitted == [queue[0]])
      && (!attributesOpen ==> o.result == Err(Sender) && o.emitted == [])
  {
    ProduceWaiting(pipeline, w.head, resetOpen);
    ProduceSuffix(pipeline, w.head, resetOpen);
    ProduceKeepsQueueOrder(pipeline, w.head, resetOpen);
  }

  /** A yield marks derivation idle, sends no attributes and keeps the safe head unseen for the next try. */
  lemma YieldKeepsSafeHeadUnseen(
    pipeline: Pipeline, idle: bool, msg: InboundDerivationMessage,
    w: WatchState, attributesOpen: bool, resetOpen: bool)
    requires MayStep(idle, false, msg, w, true)
    requires ProduceSpec(pipeline, w.head, resetOpen).result == Err(Yield)
    ensures var o := ProcessSpec(pipeline, idle, false, msg, w, true, attributesOpen, resetOpen);
      o.result == Ok(()) && o.idle && o.headChanged == w.changed && o.emitted == []
  {
  }

  /** After `process` waits for a signal, it has yielded, and it has asked the engine to reset iff interop is inactive. */
  lemma WaitingOnlyAfterReset(
    pipeline: Pipeline, idle: bool, msg: InboundDerivationMessage,
    w: WatchState, elSyncComplete: bool, attributesOpen: bool, resetOpen: bool)
    ensures var o := ProcessSpec(pipeline, idle, false, msg, w, elSyncComplete, attributesOpen, resetOpen);
      && (o.waiting ==> o.result == Ok(()) && o.idle && o.emitted == [])
      && (o.resetRequested <==> o.waiting && !IsInteropActive(pipeline.rollupConfig, w.head.blockInfo.timestamp))
  {
    if MayStep(idle, false, msg, w, elSyncComplete) {
      ProduceWaiting(pipeline, w.head, resetOpen);
    }
  }
}
