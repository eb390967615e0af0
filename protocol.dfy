/**
 * Protocol values shared by derivation and the engine: hashes, block references,
 * payload attributes with their parent, and the rollup configuration's fork times.
 */
module Protocol {
  import opened Wrappers

  /** A 32-byte hash. */
  type B256 = s: seq<bv8> | |s| == 32 witness seq(32, _ => 0 as bv8)

  /** `B256::is_zero`: every byte is zero. */
  predicate IsZero(h: B256) {
    forall i :: 0 <= i < |h| ==> h[i] == 0
  }

  /** An L1 or L2 block header summary. */
  datatype BlockInfo = BlockInfo(hash: B256, number: nat, parentHash: B256, timestamp: nat)

  /** An L2 block reference with the L1 origin it was derived from. */
  datatype L2BlockInfo = L2BlockInfo(blockInfo: BlockInfo, l1OriginNumber: nat, seqNum: nat)

  /** An EIP-2718 encoded transaction. */
  type Transaction = seq<bv8>

  /** The EIP-2718 type byte of an OP Stack deposit transaction. */
  const DepositTxType: bv8 := 0x7E

  predicate IsDeposit(tx: Transaction) {
    |tx| > 0 && tx[0] == DepositTxType
  }

  /** The payload attributes handed to the execution engine; `transactions` is forced inclusion. */
  datatype PayloadAttributes = PayloadAttributes(
    timestamp: nat,
    transactions: Option<seq<Transaction>>,
    noTxPool: Option<bool>,
    gasLimit: Option<nat>)

  /** Payload attributes together with the L2 block they build on. */
  datatype OpAttributesWithParent = OpAttributesWithParent(
    inner: PayloadAttributes,
    parent: L2BlockInfo,
    isLastInSpan: bool)

  /** Attributes whose every forced transaction is a deposit. */
  predicate IsDepositsOnly(a: OpAttributesWithParent) {
    a.inner.transactions.None?
    || forall i :: 0 <= i < |a.inner.transactions.value| ==> IsDeposit(a.inner.transactions.value[i])
  }

  /** The deposit transactions of `txs`, in their original order. */
  function Deposits(txs: seq<Transaction>): (r: seq<Transaction>)
    ensures |r| <= |txs|
    ensures forall i :: 0 <= i < |r| ==> IsDeposit(r[i])
    ensures forall tx :: tx in r <==> tx in txs && IsDeposit(tx)
    ensures (forall i :: 0 <= i < |txs| ==> IsDeposit(txs[i])) ==> r == txs
  {
    if txs == [] then []
    else if IsDeposit(txs[0]) then [txs[0]] + Deposits(txs[1..])
    else Deposits(txs[1..])
  }

  /** The same attributes with every non-deposit transaction dropped. */
  function AsDepositsOnly(a: OpAttributesWithParent): (r: OpAttributesWithParent)
    ensures IsDepositsOnly(r)
    ensures r.parent == a.parent && r.inner.timestamp == a.inner.timestamp
    ensures IsDepositsOnly(a) ==> r == a
  {
    match a.inner.transactions
    case None => a
    case Some(txs) => a.(inner := a.inner.(transactions := Some(Deposits(txs))))
  }

  /** Fork activation times of the rollup; a fork is active from its timestamp on. */
  datatype RollupConfig = RollupConfig(holoceneTime: Option<nat>, interopTime: Option<nat>)

  predicate IsHoloceneActive(cfg: RollupConfig, timestamp: nat) {
    cfg.holoceneTime.Some? && timestamp >= cfg.holoceneTime.value
  }

  predicate IsInteropActive(cfg: RollupConfig, timestamp: nat) {
    cfg.interopTime.Some? && timestamp >= cfg.interopTime.value
  }
}
