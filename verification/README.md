# Bridge message processability

A model of the check the bridge UI runs before it lets a user claim a bridge
message on the destination chain: `isTransactionProcessable` in
`packages/bridge-ui-v2/src/libs/bridge/isTransactionProcessable.ts`.

Given a bridge transaction, the check answers whether the destination chain
has synced far enough with the source chain for the message to be claimed:

1. Without a receipt or a message payload the answer is `false`; a message
   whose status is not `NEW` is answered `true`.
2. The routing table gives the cross-chain-sync contract on the destination
   chain for the (destination, source) pair; the check reads that contract's
   synced snippet at slot 0 (the latest), which names a source-chain block hash.
3. The block with that hash is looked up on the source chain; the answer is
   `true` exactly when the block has a number and the receipt's block number
   is at most that number. Any failure in steps 2-3 answers `false`.

Modules:

- `BridgeTypes` (`bridge_types.dfy`): the transaction, receipt, message,
  routing table, and the outcomes of the two remote reads
  (`CheckpointRead = Snippet(hash) | ReadFailed`,
  `BlockLookup = Found(Option<nat>) | LookupFailed`).
- `Processable` (`processable.dfy`): the decision as a pure function
  `IsProcessable(tx, checkpoint, block)`, split into the filter, the height
  comparison, and an independent statement `Justified` of when a "yes" is
  allowed, with the lemmas relating them.
- `Evaluation` (`evaluation.dfy`): the decision run against a `Network`
  value whose two fields are the remote calls. A run returns its outcome and
  the list of requests it issued, so the model can say which calls are made,
  with which slot and which hash.
- `SyncHistory` (`sync_history.dfy`): successive runs for one message while
  the synced checkpoint advances.

Block numbers are arbitrary-precision integers in the source, so they are
`nat` here. Every member is a pure function, so repeated runs with the same
chain answers give the same result.

`isTransactionProcessable` is not total: with no route for the pair, line 23
throws before the `try` is entered and the returned promise rejects instead of
answering `false`. `Evaluate` returns `Rejected(MissingRoute)` in that case.

## Model

| member | source | states |
|---|---|---|
| Processable.Filter | packages/bridge-ui-v2/src/libs/bridge/isTransactionProcessable.ts:16-21 | Missing receipt or payload gives `false` before status is looked at; otherwise a non-`NEW` status gives `true`; only a `NEW` message with its evidence goes on, carrying the receipt's block number |
| Processable.IsSynced | packages/bridge-ui-v2/src/libs/bridge/isTransactionProcessable.ts:49 | A "yes" needs a found block with a non-null number; for a block at height `h` the answer is exactly `receiptHeight <= h` |
| Processable.IsProcessable | packages/bridge-ui-v2/src/libs/bridge/isTransactionProcessable.ts:10-54 | Every "yes" satisfies `Justified`; no receipt or payload means "no" for every status and network outcome; evidence and a non-`NEW` status mean "yes"; a `NEW` message with a failed snippet read gets "no" whatever the block lookup |
| Processable.AdvancedStatusAccepts | packages/bridge-ui-v2/src/libs/bridge/isTransactionProcessable.ts:21 | With evidence and a non-`NEW` status the answer does not depend on either network outcome |
| Processable.UnresolvedBlockRejects | packages/bridge-ui-v2/src/libs/bridge/isTransactionProcessable.ts:43-52 | For a `NEW` message a failed block lookup or a block with a null number gives `false` |
| Processable.HeightThreshold | packages/bridge-ui-v2/src/libs/bridge/isTransactionProcessable.ts:49 | For a `NEW` message with evidence and a block at height `h`, the answer is exactly `receipt.blockNumber <= h`, and equal heights answer `true` |
| Processable.DecisionMatchesJustification | packages/bridge-ui-v2/src/libs/bridge/isTransactionProcessable.ts:16-49 | The decision is "yes" if and only if the evidence is present and the independent condition `Justified` holds (non-`NEW`, or a resolved block no lower than the receipt) |
| Processable.MonotoneInHeight | packages/bridge-ui-v2/src/libs/bridge/isTransactionProcessable.ts:49 | A "yes" at observed height `h1` stays a "yes" at any `h2 >= h1`, all else fixed |
| Evaluation.Evaluate | packages/bridge-ui-v2/src/libs/bridge/isTransactionProcessable.ts:10-54 | Only a missing route for a message that reaches line 23 rejects; short-circuits issue no request; at most two requests; a routed `NEW` message with evidence always issues the first, which reads slot 0 of the routed contract on the destination chain; the second is issued exactly when that read succeeded and looks up, on the source chain, the hash it returned; a "yes" for a `NEW` message needs both requests |
| Evaluation.EvaluateAgreesWithDecision | packages/bridge-ui-v2/src/libs/bridge/isTransactionProcessable.ts:23-49 | When the route exists, a run answers what `IsProcessable` answers for the slot-0 snippet read and the lookup of its hash |
| SyncHistory.AnswerSurvivesStep | packages/bridge-ui-v2/src/libs/bridge/isTransactionProcessable.ts:49 | A "yes" survives into a later run whose resolved height is no lower |
| SyncHistory.StaysProcessable | packages/bridge-ui-v2/src/libs/bridge/isTransactionProcessable.ts:49 | If every run from `i` to `j` resolves a block no lower than the run before it, a "yes" at run `i` is a "yes" at run `j` |
| SyncHistory.FailedReadWithdrawsYes | packages/bridge-ui-v2/src/libs/bridge/isTransactionProcessable.ts:39-52 | A `NEW` message with receipt height 5 answers "yes" to a run resolving height 5, and "no" to a later run whose snippet read fails, since the failure is caught and answered `false` |

## Left out

- The contract handle built by `getContract` and the calls `read.getSyncedSnippet` and `publicClient(...).getBlock` (lines 26-30, 39, 43-45) are network I/O; their results are inputs (`CheckpointRead`, `BlockLookup`, or the fields of `Network`). A hash the source node does not know, an unconfigured chain client and transport errors all appear as `LookupFailed` or `ReadFailed`, since each ends in the `catch` at lines 50-52.
- The contents of the routing table, the contract ABI and the `BridgeTransaction` and `MessageStatus` definitions come from files that are not part of this model. `MessageStatus` is given four states; the decision only tests for `New`. A route is assumed to carry an address.
- The `console.log` calls (lines 32-47, 51) only log and do not affect the answer.
- The `Number(...)` conversions of chain ids (lines 23, 29, 43) only select clients and routes; chain ids are `nat` here.
- Reads that never settle: the source sets no time-out on `getSyncedSnippet` (line 39) or `getBlock` (lines 43-45), so an unresponsive node leaves the promise pending forever. The model assumes every run gets an answer from both chains.
- The `async`/`await` sequencing: the two reads are strictly sequential, so a run is a plain function.
