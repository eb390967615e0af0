/**
 * The build task: start a block build with a forkchoice update, fetch and import the
 * built payload, retry once with deposits only when Holocene rejects the payload,
 * and move the engine's heads to the imported block.
 */
module Build {
  import opened Wrappers
  import opened Protocol
  import opened Engine

  datatype BuildTaskError =
    | ForkchoiceUpdateFailed(rpc: RpcError)
    | EngineSyncing
    | UnexpectedPayloadStatus(status: PayloadStatus)
    | MissingPayloadId
    | GetPayloadFailed(rpc: RpcError)
    | NewPayloadFailed(rpc: RpcError)
    | DepositOnlyPayloadFailed
    | DepositOnlyPayloadReattemptFailed
    | HoloceneInvalidFlush
    | FinalizedAheadOfUnsafe(unsafeNumber: nat, finalizedNumber: nat)

  datatype BuildTask = BuildTask(cfg: RollupConfig, attributes: OpAttributesWithParent, isAttributesDerived: bool)

  /** The task the Holocene retry runs: the same task with deposits-only attributes. */
  function DepositsOnlyRetry(task: BuildTask): BuildTask {
    task.(attributes := AsDepositsOnly(task.attributes))
  }

  /** How many more times the task's import may be retried. */
  function RetryBudget(task: BuildTask): nat {
    if IsDepositsOnly(task.attributes) then 0 else 1
  }

  /** The payload status handling of `start_build`. */
  function ForkchoiceOutcome(reply: Result<ForkchoiceUpdated, RpcError>): (r: Result<PayloadId, BuildTaskError>)
    ensures r.Ok? <==> reply.Ok? && reply.value.status == Valid && reply.value.payloadId.Some?
    ensures r.Ok? ==> r.value == reply.value.payloadId.value
    ensures reply.Err? ==> r == Err(ForkchoiceUpdateFailed(reply.error))
    ensures reply.Ok? && reply.value.status == Valid && reply.value.payloadId.None? ==> r == Err(MissingPayloadId)
    ensures reply.Ok? && reply.value.status.Invalid? ==>
              r == Err(ForkchoiceUpdateFailed(LocalUsage(reply.value.status.validationError)))
    ensures reply.Ok? && reply.value.status == Syncing ==> r == Err(EngineSyncing)
    ensures reply.Ok? && reply.value.status == Accepted ==> r == Err(UnexpectedPayloadStatus(Accepted))
  {
    match reply
    case Err(e) => Err(ForkchoiceUpdateFailed(e))
    case Ok(update) =>
      match update.status
      case Valid => if update.payloadId.Some? then Ok(update.payloadId.value) else Err(MissingPayloadId)
      case Invalid(validationError) => Err(ForkchoiceUpdateFailed(LocalUsage(validationError)))
      case Syncing => Err(EngineSyncing)
      case s => Err(UnexpectedPayloadStatus(s))
  }

  /** What to do with the status `engine_newPayload` answered. */
  datatype ImportVerdict = Imported | Rejected(error: BuildTaskError) | RetryDepositsOnly

  /** The payload status handling of `fetch_and_import_payload`. */
  function ImportVerdictOf(cfg: RollupConfig, attributes: OpAttributesWithParent, status: PayloadStatus)
    : (v: ImportVerdict)
    ensures v == Imported <==> status == Valid || status == Syncing
    ensures v == RetryDepositsOnly <==>
              status.Invalid? && !IsDepositsOnly(attributes) && IsHoloceneActive(cfg, attributes.inner.timestamp)
    ensures status.Invalid? && IsDepositsOnly(attributes) ==> v == Rejected(DepositOnlyPayloadFailed)
    ensures status.Invalid? && !IsDepositsOnly(attributes) && !IsHoloceneActive(cfg, attributes.inner.timestamp) ==>
              v == Rejected(NewPayloadFailed(LocalUsage(status.validationError)))
    ensures status == Accepted ==> v == Rejected(UnexpectedPayloadStatus(Accepted))
  {
    match status
    case Valid => Imported
    case Syncing => Imported
    case Invalid(validationError) =>
      if IsDepositsOnly(attributes) then Rejected(DepositOnlyPayloadFailed)
      else if IsHoloceneActive(cfg, attributes.inner.timestamp) then RetryDepositsOnly
      else Rejected(NewPayloadFailed(LocalUsage(validationError)))
    case s => Rejected(UnexpectedPayloadStatus(s))
  }

  /** The heads after importing `block`: unsafe and cross-unsafe always, local-safe and safe for derived attributes. */
  function AfterImport(h: Heads, block: L2BlockInfo, derived: bool): Heads {
    var h' := h.(unsafeHead := block, crossUnsafeHead := block);
    if derived then h'.(localSafeHead := block, safeHead := block) else h'
  }

  /** The sanity check of `execute`: the unsafe head is not behind the finalized head. */
  predicate HeadsConsistent(h: Heads) {
    h.unsafeHead.blockInfo.number >= h.finalizedHead.blockInfo.number
  }

  /** The forkchoice a task builds on: the engine's, with the attributes' parent as head. */
  function BuildForkchoice(task: BuildTask, heads: Heads): ForkchoiceState {
    Forkchoice(heads).(headBlockHash := task.attributes.parent.blockInfo.hash)
  }

  /** The outcome of a task: its result, the engine's heads and the engine afterwards. */
  datatype Run<T> = Run(result: Result<T, BuildTaskError>, heads: Heads, engine: EngineView)

  /** `execute`. */
  function ExecuteSpec(task: BuildTask, heads: Heads, engine: EngineView): Run<()>
    decreases RetryBudget(task), 1
  {
    if !HeadsConsistent(heads) then
      Run(Err(FinalizedAheadOfUnsafe(heads.unsafeHead.blockInfo.number, heads.finalizedHead.blockInfo.number)),
          heads, engine)
    else
      var (reply, e1) := engine.ForkchoiceUpdated(BuildForkchoice(task, heads), task.attributes);
      match ForkchoiceOutcome(reply)
      case Err(err) => Run(Err(err), heads, e1)
      case Ok(payloadId) =>
        var imported := ImportSpec(task, heads, e1, payloadId);
        match imported.result
        case Err(err) => Run(Err(err), imported.heads, imported.engine)
        case Ok(block) => Run(Ok(()), AfterImport(imported.heads, block, task.isAttributesDerived), imported.engine)
  }

  /** `fetch_and_import_payload`. */
  function ImportSpec(task: BuildTask, heads: Heads, engine: EngineView, payloadId: PayloadId): Run<L2BlockInfo>
    decreases RetryBudget(task), 0
  {
    var (fetched, e1) := engine.GetPayload(payloadId);
    match fetched
    case Err(err) => Run(Err(GetPayloadFailed(err)), heads, e1)
    case Ok(block) =>
      var (status, e2) := e1.NewPayload();
      match status
      case Err(err) => Run(Err(NewPayloadFailed(err)), heads, e2)
      case Ok(s) =>
        match ImportVerdictOf(task.cfg, task.attributes, s)
        case Imported => Run(Ok(block), heads, e2)
        case Rejected(err) => Run(Err(err), heads, e2)
        case RetryDepositsOnly =>
          var retry := ExecuteSpec(DepositsOnlyRetry(task), heads, e2);
          Run(Err(if retry.result.Ok? then HoloceneInvalidFlush else DepositOnlyPayloadReattemptFailed),
              retry.heads, retry.engine)
  }

  /** `start_build`: send the forkchoice update with the attributes and classify the answer. */
  method StartBuild(engine: EngineClient, forkchoice: ForkchoiceState, attributes: OpAttributesWithParent)
    returns (r: Result<PayloadId, BuildTaskError>)
    modifies engine
    ensures var (reply, e) := old(engine.View()).ForkchoiceUpdated(forkchoice, attributes);
      r == ForkchoiceOutcome(reply) && engine.View() == e
  {
    var update := engine.ForkchoiceUpdated(forkchoice, attributes);
    r := ForkchoiceOutcome(update);
  }

  /** `fetch_and_import_payload`: fetch the built payload, import it, and on a Holocene rejection retry deposits-only. */
  method FetchAndImportPayload(task: BuildTask, state: EngineState, engine: EngineClient, payloadId: PayloadId)
    returns (r: Result<L2BlockInfo, BuildTaskError>)
    modifies state, engine
    decreases RetryBudget(task), 0
    ensures var run := ImportSpec(task, old(state.Current()), old(engine.View()), payloadId);
      r == run.result && state.Current() == run.heads && engine.View() == run.engine
  {
    var fetched := engine.GetPayload(payloadId);
    if fetched.Err? {
      return Err(GetPayloadFailed(fetched.error));
    }
    var response := engine.NewPayload();
    if response.Err? {
      return Err(NewPayloadFailed(response.error));
    }
    match ImportVerdictOf(task.cfg, task.attributes, response.value) {
      case Imported =>
        return Ok(fetched.value);
      case Rejected(err) =>
        return Err(err);
      case RetryDepositsOnly =>
        var retry := Execute(DepositsOnlyRetry(task), state, engine);
        if retry.Err? {
          return Err(DepositOnlyPayloadReattemptFailed);
        }
        return Err(HoloceneInvalidFlush);
    }
  }

  /** `execute`: check the heads, build, import, and move the heads to the new block. */
  method Execute(task: BuildTask, state: EngineState, engine: EngineClient) returns (r: Result<(), BuildTaskError>)
    modifies state, engine
    decreases RetryBudget(task), 1
    ensures var run := ExecuteSpec(task, old(state.Current()), old(engine.View()));
      r == run.result && state.Current() == run.heads && engine.View() == run.engine
  {
    // The unsafe head behind the finalized head is a critical error.
    if state.unsafeHead.blockInfo.number < state.finalizedHead.blockInfo.number {
      return Err(FinalizedAheadOfUnsafe(state.unsafeHead.blockInfo.number, state.finalizedHead.blockInfo.number));
    }
    // Build on the attributes' parent.
    var forkchoice := state.CreateForkchoiceState();
    forkchoice := forkchoice.(headBlockHash := task.attributes.parent.blockInfo.hash);
    var payloadId := StartBuild(engine, forkchoice, task.attributes);
    if payloadId.Err? {
      return Err(payloadId.error);
    }
    var newBlockRef := FetchAndImportPayload(task, state, engine, payloadId.value);
    if newBlockRef.Err? {
      return Err(newBlockRef.error);
    }
    state.SetUnsafeHead(newBlockRef.value);
    state.SetCrossUnsafeHead(newBlockRef.value);
    if task.isAttributesDerived {
      state.SetLocalSafeHead(newBlockRef.value);
      state.SetSafeHead(newBlockRef.value);
    }
    return Ok(());
  }
}
