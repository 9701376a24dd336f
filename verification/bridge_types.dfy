/** The records the decision reads: a bridge transaction as the transaction
    history hands it over, the routing table of cross-chain-sync contracts,
    and the outcomes of the two network reads the decision performs. */
module BridgeTypes {
  import opened Wrappers

  type ChainId = nat
  type Address = seq<bv8>
  type BlockHash = seq<bv8>

  /** Life-cycle state of a bridge message. Only `New` needs the
      cross-chain check; every other state counts as already processable. */
  datatype MessageStatus = New | Retriable | Done | Failed

  /** The receipt of the source-chain transaction that emitted the message.
      Block numbers are arbitrary-precision integers in the source. */
  datatype Receipt = Receipt(blockNumber: nat)

  /** The message payload. The decision only asks whether it is present. */
  datatype Message = Message(payload: seq<bv8>)

  datatype BridgeTransaction = BridgeTransaction(
    receipt: Option<Receipt>,
    message: Option<Message>,
    srcChainId: ChainId,
    destChainId: ChainId,
    status: MessageStatus
  )

  /** The per-chain-pair contract addresses; only the cross-chain-sync
      oracle is used here. */
  datatype Route = Route(crossChainSyncAddress: Address)

  /** Routes are keyed first by destination chain, then by source chain. */
  type RoutingTable = map<ChainId, map<ChainId, Route>>

  /** Outcome of reading a synced snippet from the destination chain's
      cross-chain-sync oracle: the snippet's block hash, or any failure of the
      contract call (unreachable node, revert, malformed answer). */
  datatype CheckpointRead = Snippet(blockHash: BlockHash) | ReadFailed

  /** Outcome of looking a block up by hash on the source chain: a block
      whose number may be null (a pending block), or any failure of the
      lookup, including a hash the node does not know. */
  datatype BlockLookup = Found(number: Option<nat>) | LookupFailed

  /** The slot of the oracle that holds the most recent synced snippet. */
  const LatestSlot: nat := 0

  /** Looks up the route for the ordered pair (destination, source). */
  function LookupRoute(routes: RoutingTable, dest: ChainId, src: ChainId): (r: Option<Route>)
    ensures r.Some? <==> dest in routes && src in routes[dest]
    ensures r.Some? ==> r.value == routes[dest][src]
  {
    if dest in routes && src in routes[dest] then Some(routes[dest][src]) else None
  }
}
