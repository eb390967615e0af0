/** What a build task guarantees about the engine's heads and the calls it makes. */
module BuildLemmas {
  import opened Wrappers
  import opened Protocol
  import opened Engine
  import opened Build

  /** An unsafe head behind the finalized head fails the task before anything is sent or changed. */
  lemma FinalizedAheadOfUnsafeFails(task: BuildTask, heads: Heads, engine: EngineView)
    requires !HeadsConsistent(heads)
    ensures ExecuteSpec(task, heads, engine)
            == Run(Err(FinalizedAheadOfUnsafe(heads.unsafeHead.blockInfo.number, heads.finalizedHead.blockInfo.number)),
                   heads, engine)
  {
  }

  /**
   * A task only appends forkchoice updates: the first one, sent whenever the heads are
   * consistent, builds the task's attributes on their parent; at most one update per
   * allowed retry follows it.
   */
  lemma {:induction false} ExecuteCalls(task: BuildTask, heads: Heads, engine: EngineView)
    ensures var calls := ExecuteSpec(task, heads, engine).engine.calls;
      && |engine.calls| <= |calls| <= |engine.calls| + 1 + RetryBudget(task)
      && calls[..|engine.calls|] == engine.calls
      && (HeadsConsistent(heads) ==>
            |calls| > |engine.calls|
            && calls[|engine.calls|] == ForkchoiceCall(BuildForkchoice(task, heads), task.attributes))
    decreases RetryBudget(task)
  {
    if HeadsConsistent(heads) {
      var (reply, e1) := engine.ForkchoiceUpdated(BuildForkchoice(task, heads), task.attributes);
      assert e1.calls == engine.calls + [ForkchoiceCall(BuildForkchoice(task, heads), task.attributes)];
      if ForkchoiceOutcome(reply).Ok? {
        var (fetched, e2) := e1.GetPayload(ForkchoiceOutcome(reply).value);
        if fetched.Ok? {
          var (status, e3) := e2.NewPayload();
          if status.Ok? && ImportVerdictOf(task.cfg, task.attributes, status.value) == RetryDepositsOnly {
            ExecuteCalls(DepositsOnlyRetry(task), heads, e3);
            var calls := ExecuteSpec(DepositsOnlyRetry(task), heads, e3).engine.calls;
            assert calls[..|engine.calls|] == calls[..|e3.calls|][..|engine.calls|];
          }
        }
      }
    }
  }

  /** A deposits-only task is never retried, so it makes at most one forkchoice update and never flushes. */
  lemma DepositsOnlyRunsOnce(task: BuildTask, heads: Heads, engine: EngineView)
    requires IsDepositsOnly(task.attributes)
    ensures var run := ExecuteSpec(task, heads, engine);
      |run.engine.calls| <= |engine.calls| + 1 && run.result != Err(HoloceneInvalidFlush)
  {
    ExecuteCalls(task, heads, engine);
  }

  /**
   * Heads after a task: finalized never moves; success and a Holocene flush (whose
   * deposits-only retry imported a block) move unsafe and cross-unsafe to the new
   * block, and local-safe and safe too for derived attributes; any other failure
   * leaves every head as it was.
   */
  lemma {:induction false} ExecuteHeads(task: BuildTask, heads: Heads, engine: EngineView)
    ensures var run := ExecuteSpec(task, heads, engine);
      && run.heads.finalizedHead == heads.finalizedHead
      && (run.result.Ok? || run.result == Err(HoloceneInvalidFlush) ==>
            run.heads == AfterImport(heads, run.heads.unsafeHead, task.isAttributesDerived))
      && (run.result.Err? && run.result != Err(HoloceneInvalidFlush) ==> run.heads == heads)
    decreases RetryBudget(task)
  {
    if HeadsConsistent(heads) {
      var (reply, e1) := engine.ForkchoiceUpdated(BuildForkchoice(task, heads), task.attributes);
      if ForkchoiceOutcome(reply).Ok? {
        var (fetched, e2) := e1.GetPayload(ForkchoiceOutcome(reply).value);
        if fetched.Ok? {
          var (status, e3) := e2.NewPayload();
          if status.Ok? && ImportVerdictOf(task.cfg, task.attributes, status.value) == RetryDepositsOnly {
            ExecuteHeads(DepositsOnlyRetry(task), heads, e3);
            DepositsOnlyRunsOnce(DepositsOnlyRetry(task), heads, e3);
          }
        }
      }
    }
  }

  /** A successful task imported exactly one block: the one the engine's payload decoded to. */
  lemma SuccessImportsFetchedBlock(task: BuildTask, heads: Heads, engine: EngineView)
    requires ExecuteSpec(task, heads, engine).result.Ok?
    ensures var run := ExecuteSpec(task, heads, engine);
      && engine.payloadReplies != [] && engine.payloadReplies[0].Ok?
      && run.heads == AfterImport(heads, engine.payloadReplies[0].value, task.isAttributesDerived)
      && |run.engine.calls| == |engine.calls| + 1
  {
  }

  /**
   * Holocene rejection of non-deposits-only attributes: exactly one retry, with the
   * deposits-only attributes on the same forkchoice, and the task fails either way —
   * `HoloceneInvalidFlush` when the retry succeeded, `DepositOnlyPayloadReattemptFailed`
   * otherwise.
   */
  lemma HoloceneRetry(task: BuildTask, heads: Heads, engine: EngineView, id: PayloadId, block: L2BlockInfo, why: string)
    requires HeadsConsistent(heads)
    requires engine.forkchoiceReplies != [] && engine.forkchoiceReplies[0] == Ok(ForkchoiceUpdated(Valid, Some(id)))
    requires engine.payloadReplies != [] && engine.payloadReplies[0] == Ok(block)
    requires engine.importReplies != [] && engine.importReplies[0] == Ok(Invalid(why))
    requires !IsDepositsOnly(task.attributes) && IsHoloceneActive(task.cfg, task.attributes.inner.timestamp)
    ensures var run := ExecuteSpec(task, heads, engine);
      var rest := EngineView(engine.forkchoiceReplies[1..], engine.payloadReplies[1..], engine.importReplies[1..],
                             engine.calls + [ForkchoiceCall(BuildForkchoice(task, heads), task.attributes)]);
      var retry := ExecuteSpec(DepositsOnlyRetry(task), heads, rest);
      && (run.result == Err(HoloceneInvalidFlush) <==> retry.result.Ok?)
      && (run.result == Err(DepositOnlyPayloadReattemptFailed) <==> retry.result.Err?)
      && run.heads == retry.heads && run.engine == retry.engine
      && |run.engine.calls| == |engine.calls| + 2
      && run.engine.calls[|engine.calls| + 1]
         == ForkchoiceCall(BuildForkchoice(task, heads), AsDepositsOnly(task.attributes))
  {
    var rest := EngineView(engine.forkchoiceReplies[1..], engine.payloadReplies[1..], engine.importReplies[1..],
                           engine.calls + [ForkchoiceCall(BuildForkchoice(task, heads), task.attributes)]);
    ExecuteCalls(DepositsOnlyRetry(task), heads, rest);
    DepositsOnlyRunsOnce(DepositsOnlyRetry(task), heads, rest);
  }
}
