/** The decision whether a bridge message can be claimed on its destination
    chain yet, with the two network reads it depends on taken as inputs.

    The decision runs in three steps: a filter on the transaction's own
    fields, a read of the destination chain's latest synced snippet (a
    source-chain block hash), and a comparison of the height of that block
    with the height at which the message was emitted. */
module Processable {
  import opened Wrappers
  import opened BridgeTypes

  /** A transaction carries the evidence the decision needs: a receipt (for
      the emission height) and a message payload. */
  predicate HasEvidence(tx: BridgeTransaction) {
    tx.receipt.Some? && tx.message.Some?
  }

  /** What the filter decides: an answer without any network read, or
      "go on" with the height at which the message was emitted. */
  datatype Precheck = ShortCircuit(answer: bool) | Proceed(receiptHeight: nat)

  /** The filter on the transaction's own fields. The evidence guard comes
      before the status test, so a settled message without a receipt is
      still not processable. */
  function Filter(tx: BridgeTransaction): (d: Precheck)
    ensures !HasEvidence(tx) ==> d == ShortCircuit(false)
    ensures HasEvidence(tx) && tx.status != New ==> d == ShortCircuit(true)
    ensures d.Proceed? <==> HasEvidence(tx) && tx.status == New
    ensures d.Proceed? ==> d.receiptHeight == tx.receipt.value.blockNumber
  {
    if tx.receipt.None? || tx.message.None? then ShortCircuit(false)
    else if tx.status != New then ShortCircuit(true)
    else Proceed(tx.receipt.value.blockNumber)
  }

  /** The height a block lookup proves the source chain has reached, if any:
      a failed lookup and a block with a null number prove nothing. */
  function ProvenHeight(blk: BlockLookup): (h: Option<nat>)
    ensures h.Some? <==> blk.Found? && blk.number.Some?
    ensures h.Some? ==> blk == Found(Some(h.value))
  {
    match blk
    case Found(number) => number
    case LookupFailed => None
  }

  /** The height comparison: the destination chain has synced far enough
      once it has seen a source-chain block at least as high as the block
      that holds the receipt. Equal heights count. */
  function IsSynced(receiptHeight: nat, blk: BlockLookup): (r: bool)
    ensures r ==> ProvenHeight(blk).Some?
    ensures forall h: nat :: blk == Found(Some(h)) ==> (r <==> receiptHeight <= h)
  {
    match ProvenHeight(blk)
    case None => false
    case Some(h) => receiptHeight <= h
  }

  /** The independent statement of when "processable" may be answered: the
      message is past `New`, or the block named by a successfully read
      snippet was resolved with a number no lower than the receipt's. */
  predicate Justified(tx: BridgeTransaction, cp: CheckpointRead, blk: BlockLookup) {
    || tx.status != New
    || (&& tx.receipt.Some?
        && cp.Snippet?
        && blk.Found?
        && blk.number.Some?
        && tx.receipt.value.blockNumber <= blk.number.value)
  }

  /** The whole decision, given the outcome of the snippet read `cp` and the
      outcome `blk` of looking up the snippet's block hash on the source
      chain. `blk` is only consulted when `cp` succeeded. */
  function IsProcessable(tx: BridgeTransaction, cp: CheckpointRead, blk: BlockLookup): (r: bool)
    ensures r ==> Justified(tx, cp, blk)
    ensures !HasEvidence(tx) ==> !r
    ensures HasEvidence(tx) && tx.status != New ==> r
    ensures tx.status == New && cp.ReadFailed? ==> !r
  {
    match Filter(tx)
    case ShortCircuit(answer) => answer
    case Proceed(receiptHeight) =>
      match cp
      case ReadFailed => false
      case Snippet(_) => IsSynced(receiptHeight, blk)
  }

  /** For a message past `New` with its evidence present, the network
      outcomes do not matter. */
  lemma AdvancedStatusAccepts(tx: BridgeTransaction, cp1: CheckpointRead, blk1: BlockLookup,
                              cp2: CheckpointRead, blk2: BlockLookup)
    requires HasEvidence(tx) && tx.status != New
    ensures IsProcessable(tx, cp1, blk1) == IsProcessable(tx, cp2, blk2)
  {
  }

  /** For a `New` message, a failed block lookup or a block without a number
      means "no", whatever the receipt's height. */
  lemma UnresolvedBlockRejects(tx: BridgeTransaction, cp: CheckpointRead, blk: BlockLookup)
    requires tx.status == New
    requires blk == LookupFailed || blk == Found(None)
    ensures !IsProcessable(tx, cp, blk)
  {
  }

  /** For a `New` message with its evidence, once the snippet's block resolves
      to height `h` the answer is exactly "receipt height <= h"; in particular
      a block at the receipt's own height already counts. */
  lemma HeightThreshold(tx: BridgeTransaction, hash: BlockHash, h: nat)
    requires HasEvidence(tx) && tx.status == New
    ensures IsProcessable(tx, Snippet(hash), Found(Some(h))) <==> tx.receipt.value.blockNumber <= h
    ensures IsProcessable(tx, Snippet(hash), Found(Some(tx.receipt.value.blockNumber)))
  {
  }

  /** The decision agrees with the independent statement in both directions:
      it answers "yes" exactly for justified transactions that carry their
      evidence. */
  lemma DecisionMatchesJustification(tx: BridgeTransaction, cp: CheckpointRead, blk: BlockLookup)
    ensures IsProcessable(tx, cp, blk) <==> HasEvidence(tx) && Justified(tx, cp, blk)
  {
  }

  /** Raising the observed source-chain height never withdraws a "yes". */
  lemma MonotoneInHeight(tx: BridgeTransaction, cp: CheckpointRead, h1: nat, h2: nat)
    requires h1 <= h2
    requires IsProcessable(tx, cp, Found(Some(h1)))
    ensures IsProcessable(tx, cp, Found(Some(h2)))
  {
  }
}
