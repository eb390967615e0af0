# Derivation actor and build task of a rollup node, modelled in Dafny

This project models two small decision machines of an OP Stack rollup node. They sit
between the derivation pipeline and the execution engine:

* the **derivation actor's state** (`DerivationState`). It decides whether an incoming
  event may step the derivation pipeline. It classifies every step result as continue,
  yield, reset-and-wait, Holocene activation or critical error. It sends produced payload
  attributes to the engine and reset requests when the pipeline must be reset. The safe
  head counts as seen only once attributes have been produced.
* the **block-building task** (`BuildTask`). It starts a build with a forkchoice update
  built on the attributes' parent, then fetches and imports the payload and classifies
  every engine status. When Holocene is active and a payload is rejected, it retries
  once with deposits-only attributes. After a successful import it moves the engine's
  heads.

Files and modules:

| file | module | contents |
|---|---|---|
| wrappers.dfy | `Wrappers` | `Option`, `Result` |
| protocol.dfy | `Protocol` | hashes, block references, payload attributes, deposits-only filtering, fork activation times |
| pipeline.dfy | `Derive` | the pipeline as a value: step results, errors, signals, the prepared-attributes queue |
| derivation.dfy | `Derivation` | the `DerivationState`, `SafeHeadWatch` and `Outbox` classes; `StepOnce`, `ProduceSpec` and `ProcessSpec`, the specification functions its methods are proved against |
| derivation_lemmas.dfy | `DerivationLemmas` | the properties of the derivation transitions |
| engine.dfy | `Engine` | payload statuses, the Engine API client with queued replies, the `EngineState` class with its five heads |
| build_task.dfy | `Build` | status classification, `ExecuteSpec`/`ImportSpec`, and the `StartBuild`, `FetchAndImportPayload` and `Execute` methods |
| build_lemmas.dfy | `BuildLemmas` | the properties of a build task |

How the outside world is represented:

* **The pipeline** is a datatype value held in the state's `pipeline` field. `Step`
  answers from a finite script of step results and logs the safe head it was given.
  `PreparedAttributes(a)` pushes `a` on the queue that `Next` pops. `AdvancedOrigin(o)`
  sets the origin to `o`. A script that has run out answers `Temporary(Eof)`, so every
  call of `produce_next_attributes` ends. Each system configuration lookup answers from
  a map, and a number missing from the map gets a fixed error kind. Every signal gets
  the same fixed answer, and the pipeline logs it.
* **The safe-head watch channel** is a class holding the value, an "unseen" flag and a
  "sender dropped" flag. `has_changed` fails once the sender is gone.
* **The outbound channels** (attributes, reset requests) are `Outbox` objects. Each one
  appends to `sent`, or fails when its receiver is gone.
* **EL sync completion** is a boolean parameter.
* **The engine** answers `forkchoiceUpdated`, `getPayload` and `newPayload` from three
  queues given in advance, and logs every forkchoice update it receives. A queue that
  has run out answers with a transport error. `getPayload` answers with the L2 block
  reference the payload decodes to.
* **Holocene and interop activation** are activation timestamps in `RollupConfig`. A fork
  is active at and after its timestamp.
* **`is_deposits_only` and `as_deposits_only`** are not in the modelled files. Here
  attributes are deposits-only when every forced transaction starts with the deposit type
  byte `0x7E`. `AsDepositsOnly` keeps exactly those transactions and leaves the parent
  and timestamp alone. The fact that the retry's attributes are deposits-only is proved
  (`Protocol.AsDepositsOnly`), not assumed. That fact bounds the Holocene retry to one
  level of recursion: it is the termination measure `RetryBudget` of `Build.Execute`.
* **`create_forkchoice_state`** is not in the modelled files. It is taken to use the
  unsafe, safe and finalized heads' hashes.

One behaviour of the source is worth pointing out. When a Holocene retry succeeds, the
task still fails with `HoloceneInvalidFlush`, but the heads have already moved to the
deposits-only block (`BuildLemmas.ExecuteHeads`). This is how the source signals the
derivation side to flush its channel.

## Model

| member | source | states |
|---|---|---|
| `Derivation.DerivationState.constructor` | crates/node/service/src/actors/derivation.rs:105-107 | a fresh state holds the given pipeline, is idle and is not waiting for a signal |
| `Derivation.DerivationState.HandleSignal` | crates/node/service/src/actors/derivation.rs:110-121 | the signal reaches the pipeline; its answer is dropped (only logged) and the flags are untouched |
| `Derivation.DerivationState.ReceiveSignal` | crates/node/service/src/actors/derivation.rs:363-375 | a closed signal channel is `SignalReceiveFailed` and changes nothing; any received signal clears `waiting_for_signal`, whether the pipeline accepted it or not |
| `Derivation.DerivationState.ProduceNextAttributes` | crates/node/service/src/actors/derivation.rs:125-222 | the loop's result, the pipeline, the flag and the reset requests sent are exactly those of `ProduceSpec` on the old pipeline |
| `Derivation.DerivationState.Process` | crates/node/service/src/actors/derivation.rs:236-305 | result, new flags, pipeline, the watch's seen-mark and what both channels received are exactly those of `ProcessSpec` |
| `DerivationLemmas.StepClassification` | crates/node/service/src/actors/derivation.rs:136-157 | `Temporary(NotEnoughData)` steps again without consulting the queue; any other `Temporary` yields; `Critical` returns the error; `AdvancedOrigin` without an origin is a critical `MissingOrigin`; prepared attributes are returned at once as the oldest queued value |
| `DerivationLemmas.ResetClassification` | crates/node/service/src/actors/derivation.rs:183-206 | a non-Holocene reset yields and sets the wait flag; it sends a reset request exactly when interop is inactive at the safe head's timestamp; a closed reset channel is a `Sender` error without the flag |
| `DerivationLemmas.HoloceneActivationClassification` | crates/node/service/src/actors/derivation.rs:167-182 | Holocene activation sends an activation signal for the safe head, origin and system config, does not set the wait flag, and goes on stepping unless attributes are queued |
| `DerivationLemmas.ProduceShape` | crates/node/service/src/actors/derivation.rs:133-135 | every call steps the pipeline at least once, always with the current safe head, and leaves its configuration alone |
| `DerivationLemmas.ProduceSuffix` | crates/node/service/src/actors/derivation.rs:133-135 | every call consumes a prefix of the pipeline's step results |
| `DerivationLemmas.ProduceKeepsQueueOrder` | crates/node/service/src/actors/derivation.rs:217-220 | the queue before the call plus everything the consumed steps prepared equals the returned attributes followed by the queue after: nothing is lost or duplicated, and the first `Some` of `next` is returned |
| `DerivationLemmas.ProduceWaiting` | crates/node/service/src/actors/derivation.rs:192-205 | the wait flag is set only with a yield; a reset request is sent iff the flag is set while interop is inactive, and only over an open channel |
| `DerivationLemmas.ProduceSignals` | crates/node/service/src/actors/derivation.rs:167-182 | the only signals sent while producing are activation signals carrying the current safe head |
| `DerivationLemmas.NotReadyIgnored` | crates/node/service/src/actors/derivation.rs:244-251 | before EL sync completes, or while a signal is awaited, `process` returns Ok and changes nothing: no step, no send, same flags, same seen-mark |
| `DerivationLemmas.BusyNeedsSafeHeadChange` | crates/node/service/src/actors/derivation.rs:253-268 | a busy pipeline on `NewDataAvailable` with an unchanged safe head is left alone; a closed watch gives `L2SafeHeadReceiveFailed` |
| `DerivationLemmas.ZeroHashNeverSteps` | crates/node/service/src/actors/derivation.rs:270-275 | a safe head with zero hash never steps the pipeline and nothing is sent |
| `DerivationLemmas.StepsExactlyWhenAllowed` | crates/node/service/src/actors/derivation.rs:244-280 | the pipeline is stepped iff EL sync is complete, no signal is awaited, derivation is idle or the safe head was updated or has changed, and its hash is not zero; it is stepped only with the watched safe head |
| `DerivationLemmas.ProducedAttributesSent` | crates/node/service/src/actors/derivation.rs:292-304 | after production derivation is busy and the safe head seen; exactly one attributes value, the oldest available, is sent; a closed channel is a `Sender` error |
| `DerivationLemmas.YieldKeepsSafeHeadUnseen` | crates/node/service/src/actors/derivation.rs:279-286 | a yield returns Ok, marks derivation idle, sends nothing and leaves the safe head unseen so it is used again |
| `DerivationLemmas.WaitingOnlyAfterReset` | crates/node/service/src/actors/derivation.rs:199-205 | when `process` leaves the state waiting for a signal it has yielded and sent no attributes; it asked for a reset iff interop is inactive |
| `Protocol.AsDepositsOnly` | crates/node/engine/src/task_queue/tasks/build/task.rs:284 | the retry's attributes are deposits-only, keep parent and timestamp, and are unchanged for attributes that already were |
| `Build.ForkchoiceOutcome` | crates/node/engine/src/task_queue/tasks/build/task.rs:103-136 | `Valid` with a payload id gives that id, `Valid` without one `MissingPayloadId`, `Invalid` and transport failure `ForkchoiceUpdateFailed`, `Syncing` `EngineSyncing`, anything else `UnexpectedPayloadStatus` |
| `Build.ImportVerdictOf` | crates/node/engine/src/task_queue/tasks/build/task.rs:259-307 | `Valid` and `Syncing` import; `Invalid` on deposits-only attributes is `DepositOnlyPayloadFailed`, without Holocene `NewPayloadFailed`, and otherwise a deposits-only retry; other statuses are `UnexpectedPayloadStatus` |
| `Build.StartBuild` | crates/node/engine/src/task_queue/tasks/build/task.rs:66-137 | one forkchoice update carrying the attributes is sent and its answer classified by `ForkchoiceOutcome` |
| `Build.FetchAndImportPayload` | crates/node/engine/src/task_queue/tasks/build/task.rs:149-309 | result, heads and engine are exactly those of `ImportSpec`, including the recursive deposits-only retry |
| `Build.Execute` | crates/node/engine/src/task_queue/tasks/build/task.rs:314-357 | result, heads and engine are exactly those of `ExecuteSpec`; the recursion ends because a retry's attributes are deposits-only |
| `BuildLemmas.FinalizedAheadOfUnsafeFails` | crates/node/engine/src/task_queue/tasks/build/task.rs:317-323 | an unsafe head numbered below the finalized head fails with `FinalizedAheadOfUnsafe(unsafe, finalized)`; no call is made and no head changes |
| `BuildLemmas.ExecuteCalls` | crates/node/engine/src/task_queue/tasks/build/task.rs:327-334 | the first forkchoice update builds the task's attributes on a forkchoice whose head is the attributes' parent hash; a task makes at most one update more than its retry budget |
| `BuildLemmas.DepositsOnlyRunsOnce` | crates/node/engine/src/task_queue/tasks/build/task.rs:273-275 | a deposits-only task never retries: at most one forkchoice update, never `HoloceneInvalidFlush` |
| `BuildLemmas.HoloceneRetry` | crates/node/engine/src/task_queue/tasks/build/task.rs:276-296 | on a Holocene `Invalid`, exactly one retry with the deposits-only attributes runs on the same forkchoice; the task always fails, with `HoloceneInvalidFlush` iff the retry succeeded and `DepositOnlyPayloadReattemptFailed` iff it failed |
| `BuildLemmas.ExecuteHeads` | crates/node/engine/src/task_queue/tasks/build/task.rs:350-356 | finalized never moves; success (or a flush after a successful retry) sets unsafe and cross-unsafe to the new block, and local-safe and safe only for derived attributes; any other failure leaves all heads unchanged |
| `BuildLemmas.SuccessImportsFetchedBlock` | crates/node/engine/src/task_queue/tasks/build/task.rs:339-356 | a successful task made one forkchoice update and moved the heads to the block the fetched payload decodes to |

## Left out

- The actor's `select!` event loop, cancellation and the tokio channels (derivation.rs:342-398) are left out. Only the signal branch (`ReceiveSignal`) and the per-event `process` transition are modelled, because the rest is concurrent event multiplexing.
- The safe head is read once per call of `produce_next_attributes`. A concurrent update to the watch during the loop is not modelled, because the model has no concurrency.
- crates/node/service/src/actors/traits.rs is not part of this model: it declares traits and has no behaviour.
- The concrete pipeline, `system_config_by_number`, `is_interop_active` and `is_holocene_active` are foreign. They are a scripted value and activation timestamps, as described above.
- The Engine API version choice (V1 to V4 of forkchoiceUpdated, getPayload and newPayload) is left out. Those rules are not in the modelled files, and the calls are network I/O. Each method is a single queued reply.
- Payload envelope construction and `L2BlockInfo::from_payload_and_genesis` are external decoding. The block reference is an opaque part of the `getPayload` reply, and decoding never fails.
- The canonicalizing forkchoice task (task.rs:359), the `payload_tx` send (task.rs:362-364) and their errors are left out. They are external collaborators. `Execute` ends after moving the heads.
- `EngineTaskError` wrapping is flattened: `Execute` returns `BuildTaskError` directly.
- Metrics, logging and timing are left out because they have no effect on state.
