/** Successive runs of the decision for one message. Every run re-reads both
    chains, so answers may change between runs: a run whose read fails
    answers "no" even after earlier runs answered "yes". What does hold is
    that a "yes" is kept by every later run that resolves a block at least
    as high as the one before it. */
module SyncHistory {
  import opened Wrappers
  import opened BridgeTypes
  import opened Processable

  /** The outcomes of the two reads in one run. */
  datatype Observation = Observation(checkpoint: CheckpointRead, block: BlockLookup)

  /** The source-chain height one run saw, when both reads succeeded and the
      block had a number. */
  function SyncedHeight(o: Observation): (h: Option<nat>)
    ensures h.Some? <==> o.checkpoint.Snippet? && o.block.Found? && o.block.number.Some?
    ensures h.Some? ==> o.block == Found(Some(h.value))
  {
    if o.checkpoint.Snippet? then ProvenHeight(o.block) else None
  }

  predicate Answer(tx: BridgeTransaction, o: Observation) {
    IsProcessable(tx, o.checkpoint, o.block)
  }

  /** `b` follows `a`: both runs saw a height, and the later one is no lower. */
  predicate Advances(a: Observation, b: Observation) {
    && SyncedHeight(a).Some?
    && SyncedHeight(b).Some?
    && SyncedHeight(a).value <= SyncedHeight(b).value
  }

  /** Between runs `i` and `j`, each run saw a height no lower than the run
      before it. Runs outside that stretch are unconstrained. */
  predicate AdvancingBetween(history: seq<Observation>, i: nat, j: nat)
    requires i <= j < |history|
  {
    forall k :: i <= k < j ==> Advances(history[k], history[k + 1])
  }

  /** One step: a "yes" survives into a run that saw at least as much. */
  lemma AnswerSurvivesStep(tx: BridgeTransaction, a: Observation, b: Observation)
    requires Advances(a, b)
    requires Answer(tx, a)
    ensures Answer(tx, b)
  {
  }

  /** Once run `i` answers "yes", run `j` answers "yes" too, provided every
      run from `i` to `j` resolved a block no lower than the run before it. */
  lemma {:induction false} StaysProcessable(tx: BridgeTransaction, history: seq<Observation>, i: nat, j: nat)
    requires i <= j < |history|
    requires AdvancingBetween(history, i, j)
    requires Answer(tx, history[i])
    ensures Answer(tx, history[j])
    decreases j - i
  {
    if i < j {
      assert Advances(history[i], history[i + 1]);
      AnswerSurvivesStep(tx, history[i], history[i + 1]);
      StaysProcessable(tx, history, i + 1, j);
    }
  }

  /** Without the advancing condition a "yes" can be taken back: a later run
      whose snippet read fails answers "no", however high the chain is. */
  lemma FailedReadWithdrawsYes(tx: BridgeTransaction)
    requires tx.status == New
    requires tx.receipt == Some(Receipt(5)) && tx.message.Some?
    ensures var history := [Observation(Snippet([]), Found(Some(5))), Observation(ReadFailed, Found(Some(9)))];
            Answer(tx, history[0]) && !Answer(tx, history[1])
  {
  }
}
