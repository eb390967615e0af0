/**
 * The derivation pipeline as seen by the derivation actor. The concrete pipeline is
 * not part of this model: it is a value whose steps answer from a finite script,
 * with a queue of prepared attributes, an L1 origin, the system configurations it
 * knows and its answer to signals. Two logs record what the actor asked of it.
 */
module Derive {
  import opened Wrappers
  import opened Protocol

  datatype PipelineError = NotEnoughData | Eof | MissingOrigin | Provider(message: string)

  datatype ResetError =
    | HoloceneActivation
    | ReorgDetected(expected: B256, found: B256)
    | BadParentHash(expected: B256, found: B256)

  datatype PipelineErrorKind =
    | Temporary(error: PipelineError)
    | Critical(error: PipelineError)
    | Reset(reset: ResetError)

  /**
   * The result of one pipeline step. `PreparedAttributes` carries the attributes the
   * step pushed onto the queue and `AdvancedOrigin` the origin after the advance.
   */
  datatype StepResult =
    | PreparedAttributes(attributes: OpAttributesWithParent)
    | AdvancedOrigin(origin: Option<BlockInfo>)
    | OriginAdvanceErr(err: PipelineErrorKind)
    | StepFailed(err: PipelineErrorKind)

  datatype SystemConfig = SystemConfig(batcherAddress: seq<bv8>, gasLimit: nat)

  datatype Signal =
    | ResetSignal(l2SafeHead: L2BlockInfo, l1Origin: BlockInfo, systemConfig: Option<SystemConfig>)
    | ActivationSignal(l2SafeHead: L2BlockInfo, l1Origin: BlockInfo, systemConfig: Option<SystemConfig>)
    | FlushChannel

  datatype Pipeline = Pipeline(
    script: seq<StepResult>,                  // what the remaining steps return
    prepared: seq<OpAttributesWithParent>,    // the queue drained by `next`
    origin: Option<BlockInfo>,
    systemConfigs: map<nat, SystemConfig>,    // by L2 block number
    lookupError: PipelineErrorKind,           // reported for an unknown block number
    signalFailure: Option<PipelineErrorKind>, // how the pipeline answers signals
    rollupConfig: RollupConfig,
    stepped: seq<L2BlockInfo>,                // the safe heads passed to `step`
    signals: seq<Signal>)                     // the signals received
  {
    /** `step(l2_safe_head)`; a pipeline whose script has run out has no more data. */
    function Step(head: L2BlockInfo): (StepResult, Pipeline) {
      var p := this.(stepped := stepped + [head]);
      if script == [] then (StepFailed(Temporary(Eof)), p)
      else
        var s := script[0];
        var p' := p.(script := script[1..]);
        match s
        case PreparedAttributes(a) => (s, p'.(prepared := prepared + [a]))
        case AdvancedOrigin(o) => (s, p'.(origin := o))
        case _ => (s, p')
    }

    /** `next()`: pops the oldest prepared attributes. */
    function Next(): (Option<OpAttributesWithParent>, Pipeline) {
      if prepared == [] then (None, this)
      else (Some(prepared[0]), this.(prepared := prepared[1..]))
    }

    /** `signal(signal)`. */
    function AcceptSignal(s: Signal): (Result<(), PipelineErrorKind>, Pipeline) {
      var p := this.(signals := signals + [s]);
      match signalFailure
      case Some(e) => (Err(e), p)
      case None => (Ok(()), p)
    }

    /** `system_config_by_number(number)`. */
    function SystemConfigByNumber(number: nat): Result<SystemConfig, PipelineErrorKind> {
      if number in systemConfigs then Ok(systemConfigs[number]) else Err(lookupError)
    }
  }

  /** `p` and `q` have the same configuration: only the script, queue, origin and logs differ. */
  ghost predicate SameSetup(p: Pipeline, q: Pipeline) {
    && q.systemConfigs == p.systemConfigs
    && q.lookupError == p.lookupError
    && q.signalFailure == p.signalFailure
    && q.rollupConfig == p.rollupConfig
  }

  /** `q` is `p` after one step with `head`, possibly followed by a queue pop and a signal. */
  ghost predicate OneStepFrom(p: Pipeline, q: Pipeline, head: L2BlockInfo) {
    && SameSetup(p, q)
    && q.stepped == p.stepped + [head]
    && q.script == (if p.script == [] then [] else p.script[1..])
  }
}
