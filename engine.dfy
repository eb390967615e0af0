/**
 * The engine side the build task talks to: the engine's view of the chain heads and
 * an Engine API client whose replies are given in advance, one queue per method.
 */
module Engine {
  import opened Wrappers
  import opened Protocol

  datatype PayloadStatus = Valid | Invalid(validationError: string) | Syncing | Accepted

  datatype RpcError = Transport(message: string) | LocalUsage(message: string)

  /** What a method whose reply queue has run out answers: the engine is unreachable. */
  const NoReply: RpcError := Transport("no reply")

  datatype PayloadId = PayloadId(bytes: seq<bv8>)

  datatype ForkchoiceState = ForkchoiceState(headBlockHash: B256, safeBlockHash: B256, finalizedBlockHash: B256)

  datatype ForkchoiceUpdated = ForkchoiceUpdated(status: PayloadStatus, payloadId: Option<PayloadId>)

  /** A forkchoice update carrying attributes to build on top of the given forkchoice. */
  datatype ForkchoiceCall = ForkchoiceCall(forkchoice: ForkchoiceState, attributes: OpAttributesWithParent)

  /** The engine's replies still to come, and the forkchoice updates it received. */
  datatype EngineView = EngineView(
    forkchoiceReplies: seq<Result<ForkchoiceUpdated, RpcError>>,
    payloadReplies: seq<Result<L2BlockInfo, RpcError>>,    // the block each fetched payload decodes to
    importReplies: seq<Result<PayloadStatus, RpcError>>,
    calls: seq<ForkchoiceCall>)
  {
    function ForkchoiceUpdated(forkchoice: ForkchoiceState, attributes: OpAttributesWithParent)
      : (Result<ForkchoiceUpdated, RpcError>, EngineView)
    {
      var e := this.(calls := calls + [ForkchoiceCall(forkchoice, attributes)]);
      if forkchoiceReplies == [] then (Err(NoReply), e)
      else (forkchoiceReplies[0], e.(forkchoiceReplies := forkchoiceReplies[1..]))
    }

    function GetPayload(id: PayloadId): (Result<L2BlockInfo, RpcError>, EngineView) {
      if payloadReplies == [] then (Err(NoReply), this)
      else (payloadReplies[0], this.(payloadReplies := payloadReplies[1..]))
    }

    function NewPayload(): (Result<PayloadStatus, RpcError>, EngineView) {
      if importReplies == [] then (Err(NoReply), this)
      else (importReplies[0], this.(importReplies := importReplies[1..]))
    }
  }

  class EngineClient {
    var forkchoiceReplies: seq<Result<ForkchoiceUpdated, RpcError>>
    var payloadReplies: seq<Result<L2BlockInfo, RpcError>>
    var importReplies: seq<Result<PayloadStatus, RpcError>>
    var calls: seq<ForkchoiceCall>

    constructor (v: EngineView)
      ensures View() == v
    {
      forkchoiceReplies, payloadReplies, importReplies, calls :=
        v.forkchoiceReplies, v.payloadReplies, v.importReplies, v.calls;
    }

    function View(): EngineView
      reads this
    {
      EngineView(forkchoiceReplies, payloadReplies, importReplies, calls)
    }

    /** `engine_forkchoiceUpdated` with payload attributes. */
    method ForkchoiceUpdated(forkchoice: ForkchoiceState, attributes: OpAttributesWithParent)
      returns (reply: Result<ForkchoiceUpdated, RpcError>)
      modifies this
      ensures (reply, View()) == old(View()).ForkchoiceUpdated(forkchoice, attributes)
    {
      calls := calls + [ForkchoiceCall(forkchoice, attributes)];
      if forkchoiceReplies == [] {
        return Err(NoReply);
      }
      reply := forkchoiceReplies[0];
      forkchoiceReplies := forkchoiceReplies[1..];
    }

    /** `engine_getPayload`: the block the built payload decodes to. */
    method GetPayload(id: PayloadId) returns (reply: Result<L2BlockInfo, RpcError>)
      modifies this
      ensures (reply, View()) == old(View()).GetPayload(id)
    {
      if payloadReplies == [] {
        return Err(NoReply);
      }
      reply := payloadReplies[0];
      payloadReplies := payloadReplies[1..];
    }

    /** `engine_newPayload`: import the fetched payload. */
    method NewPayload() returns (reply: Result<PayloadStatus, RpcError>)
      modifies this
      ensures (reply, View()) == old(View()).NewPayload()
    {
      if importReplies == [] {
        return Err(NoReply);
      }
      reply := importReplies[0];
      importReplies := importReplies[1..];
    }
  }

  /** The five heads the engine tracks. */
  datatype Heads = Heads(
    unsafeHead: L2BlockInfo,
    crossUnsafeHead: L2BlockInfo,
    localSafeHead: L2BlockInfo,
    safeHead: L2BlockInfo,
    finalizedHead: L2BlockInfo)

  /** The forkchoice of the current heads: unsafe as head, safe and finalized as they are. */
  function Forkchoice(h: Heads): ForkchoiceState {
    ForkchoiceState(h.unsafeHead.blockInfo.hash, h.safeHead.blockInfo.hash, h.finalizedHead.blockInfo.hash)
  }

  class EngineState {
    var unsafeHead: L2BlockInfo
    var crossUnsafeHead: L2BlockInfo
    var localSafeHead: L2BlockInfo
    var safeHead: L2BlockInfo
    var finalizedHead: L2BlockInfo

    constructor (h: Heads)
      ensures Current() == h
    {
      unsafeHead, crossUnsafeHead, localSafeHead, safeHead, finalizedHead :=
        h.unsafeHead, h.crossUnsafeHead, h.localSafeHead, h.safeHead, h.finalizedHead;
    }

    function Current(): Heads
      reads this
    {
      Heads(unsafeHead, crossUnsafeHead, localSafeHead, safeHead, finalizedHead)
    }

    function CreateForkchoiceState(): (f: ForkchoiceState)
      reads this
      ensures f == Forkchoice(Current())
    {
      ForkchoiceState(unsafeHead.blockInfo.hash, safeHead.blockInfo.hash, finalizedHead.blockInfo.hash)
    }

    method SetUnsafeHead(h: L2BlockInfo)
      modifies this`unsafeHead
      ensures unsafeHead == h
    {
      unsafeHead := h;
    }

    method SetCrossUnsafeHead(h: L2BlockInfo)
      modifies this`crossUnsafeHead
      ensures crossUnsafeHead == h
    {
      crossUnsafeHead := h;
    }

    method SetLocalSafeHead(h: L2BlockInfo)
      modifies this`localSafeHead
      ensures localSafeHead == h
    {
      localSafeHead := h;
    }

    method SetSafeHead(h: L2BlockInfo)
      modifies this`safeHead
      ensures safeHead == h
    {
      safeHead := h;
    }
  }
}
