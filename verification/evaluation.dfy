/** The decision together with the network reads it performs. The two
    remote calls are the fields of a `Network` value, so a run of the
    decision is a pure function of the transaction, the routing table and
    what the two chains answer; the run also reports the requests it made,
    in order. */
module Evaluation {
  import opened Wrappers
  import opened BridgeTypes
  import opened Processable

  /** A remote call the decision makes: a read of a synced snippet from a
      cross-chain-sync contract on some chain, or a block lookup by hash on
      some chain. */
  datatype Request =
    | ReadSyncedSnippet(chainId: ChainId, contract: Address, slot: nat)
    | GetBlock(chainId: ChainId, blockHash: BlockHash)

  /** What the chains answer. Transport errors, reverts, unknown hashes and
      unconfigured chains are all part of these answers. */
  datatype Network = Network(
    readSyncedSnippet: (ChainId, Address, nat) -> CheckpointRead,
    getBlock: (ChainId, BlockHash) -> BlockLookup
  )

  /** The one error that escapes: the routing lookup for the chain pair
      happens before the error handler is installed. */
  datatype Failure = MissingRoute

  datatype Outcome = Answered(processable: bool) | Rejected(error: Failure)

  datatype Run = Run(outcome: Outcome, requests: seq<Request>)

  /** The snippet read a `New` transaction triggers, given its route. */
  function CheckpointRequest(tx: BridgeTransaction, route: Route): Request {
    ReadSyncedSnippet(tx.destChainId, route.crossChainSyncAddress, LatestSlot)
  }

  /** Runs the decision for `tx` against `routes` and `net`. */
  function Evaluate(tx: BridgeTransaction, routes: RoutingTable, net: Network): (run: Run)
    // Only a missing route for a transaction that reaches the route lookup escapes.
    ensures run.outcome.Rejected? <==>
              Filter(tx).Proceed? && LookupRoute(routes, tx.destChainId, tx.srcChainId).None?
    // A short-circuited decision answers without any remote call.
    ensures Filter(tx).ShortCircuit? ==>
              run.outcome == Answered(Filter(tx).answer) && run.requests == []
    ensures run.outcome == Answered(true) ==> tx.status != New || |run.requests| == 2
    ensures |run.requests| <= 2
    // The first call, if any, reads the latest slot on the destination chain.
    ensures |run.requests| >= 1 ==>
              && Filter(tx).Proceed?
              && tx.destChainId in routes && tx.srcChainId in routes[tx.destChainId]
              && run.requests[0] == CheckpointRequest(tx, routes[tx.destChainId][tx.srcChainId])
              && run.requests[0].slot == 0
    // The second call, if any, looks up on the source chain the hash the first call returned.
    ensures |run.requests| == 2 ==>
              var cp := net.readSyncedSnippet(run.requests[0].chainId, run.requests[0].contract, run.requests[0].slot);
              && cp.Snippet?
              && run.requests[1] == GetBlock(tx.srcChainId, cp.blockHash)
    // A routed `New` message with its evidence always issues the slot-0 read ...
    ensures Filter(tx).Proceed? && LookupRoute(routes, tx.destChainId, tx.srcChainId).Some? ==>
              |run.requests| >= 1
    // ... and the block lookup follows exactly when that read succeeded.
    ensures |run.requests| >= 1 ==>
              (|run.requests| == 2 <==>
                 net.readSyncedSnippet(run.requests[0].chainId, run.requests[0].contract, run.requests[0].slot).Snippet?)
  {
    match Filter(tx)
    case ShortCircuit(answer) => Run(Answered(answer), [])
    case Proceed(receiptHeight) =>
      match LookupRoute(routes, tx.destChainId, tx.srcChainId)
      case None => Run(Rejected(MissingRoute), [])
      case Some(route) =>
        var read := CheckpointRequest(tx, route);
        match net.readSyncedSnippet(read.chainId, read.contract, read.slot)
        case ReadFailed => Run(Answered(false), [read])
        case Snippet(hash) =>
          var lookup := GetBlock(tx.srcChainId, hash);
          Run(Answered(IsSynced(receiptHeight, net.getBlock(lookup.chainId, lookup.blockHash))),
              [read, lookup])
  }

  /** Whenever the routing lookup succeeds, a run
      answers exactly what the pure decision answers for the outcomes of the
      slot-0 snippet read and of the lookup of the hash it returned. */
  lemma EvaluateAgreesWithDecision(tx: BridgeTransaction, routes: RoutingTable, net: Network)
    requires tx.destChainId in routes && tx.srcChainId in routes[tx.destChainId]
    ensures var route := routes[tx.destChainId][tx.srcChainId];
            var cp := net.readSyncedSnippet(tx.destChainId, route.crossChainSyncAddress, LatestSlot);
            var blk := if cp.Snippet? then net.getBlock(tx.srcChainId, cp.blockHash) else LookupFailed;
            Evaluate(tx, routes, net).outcome == Answered(IsProcessable(tx, cp, blk))
  {
  }
}
