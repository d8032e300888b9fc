/** Conservation over whole runs: what a block commits to is pending until it has its
    confirmations, and is then finalized, once. */
module Finalization {
  import opened Wrappers
  import opened MachineInts
  import opened MerklePaths
  import opened Checkpoints

  function CommitmentAt(inputs: seq<Input>, i: nat): Commitment
    requires i < |inputs|
  {
    inputs[i].evaluation.commitment
  }

  /** Total evaluated in the first `n` blocks of a run. */
  function Evaluated(inputs: seq<Input>, n: nat): nat
    requires n <= |inputs|
  {
    if n == 0 then 0 else Evaluated(inputs, n - 1) + CommitmentAt(inputs, n - 1).mintedAmount
  }

  function FinalizedTotal(finalized: seq<Commitment>): nat {
    if finalized == [] then 0
    else FinalizedTotal(finalized[..|finalized| - 1]) + finalized[|finalized| - 1].mintedAmount
  }

  /** Total pending for the heights above `start` and up to `height`. */
  function PendingTotal(pending: map<nat, Commitment>, start: nat, height: nat): nat
    requires start <= height
    decreases height
  {
    if height == start then 0
    else PendingTotal(pending, start, height - 1) + if height in pending then pending[height].mintedAmount else 0
  }

  /** The pending window and everything finalized so far, for a run of `n` blocks. */
  ghost predicate Window(cfg: Config, start: nat, inputs: seq<Input>, pending: map<nat, Commitment>,
      finalized: seq<Commitment>)
  {
    var height := start + |inputs|;
    && (forall k: nat :: k in pending <==> start < k && height - cfg.confirmations < k <= height)
    && (forall k {:trigger pending[k]} :: k in pending ==> pending[k] == CommitmentAt(inputs, k - start - 1))
    && |finalized| == |inputs|
    && (forall i {:trigger finalized[i]} :: 0 <= i < |inputs| ==>
          finalized[i] == if i >= cfg.confirmations then CommitmentAt(inputs, i - cfg.confirmations)
              else cfg.EmptyCommitment())
  }

  /** A step, as far as finalization sees it. */
  lemma {:induction false} StepFinalizes(cfg: Config, before: Progress, height: u32, input: Input)
    requires NextHeight(before.checkpoint) == Some(height) && Step(cfg, before, input).Ok?
    ensures var cp, after := before.checkpoint, Step(cfg, before, input).value;
            && Finalized(cfg, cp, height, input).Ok?
            && after.checkpoint.height == height
            && after.checkpoint.pending
               == cp.pending[height := input.evaluation.commitment] - {height - cfg.confirmations}
            && after.finalized == before.finalized + [Finalized(cfg, cp, height, input).value]
  {
    EvolveCondition(cfg, before.checkpoint, height, input);
  }

  lemma {:induction false} StepHeight(cfg: Config, before: Progress, input: Input)
    requires Step(cfg, before, input).Ok?
    ensures NextHeight(before.checkpoint).Some?
  {
  }

  /** With at least one confirmation required, exactly the heights that still lack confirmations
      are pending, each with its own block's commitment, and the `i`-th block is finalized by the
      block `confirmations` later and by no other. */
  lemma {:induction false} PendingIsTheUnconfirmedWindow(cfg: Config, start: u32, header: Header, inputs: seq<Input>)
    requires cfg.confirmations >= 1
    requires Run(cfg, InitialCheckpoint(cfg, start, header), inputs).Ok?
    ensures var Progress(cp, finalized) := Run(cfg, InitialCheckpoint(cfg, start, header), inputs).value;
            cp.height == start + |inputs| && Window(cfg, start, inputs, cp.pending, finalized)
    decreases |inputs|
  {
    if inputs != [] {
      var earlier := inputs[..|inputs| - 1];
      PendingIsTheUnconfirmedWindow(cfg, start, header, earlier);
      var before := Run(cfg, InitialCheckpoint(cfg, start, header), earlier).value;
      WindowStep(cfg, start, inputs, before);
    }
  }

  /** What `height`, the one after `inputs`, finalizes, when the finalized block hashes as `input` says: with
      fewer than `confirmations` blocks behind it nothing of the run; else the block seen
      `confirmations` heights before, exactly if it still hashes to what it committed to then, and
      the refusal names the hash that has changed. */
  ghost predicate FinalizesUnchanged(cfg: Config, height: nat, inputs: seq<Input>, input: Input,
      r: Result<Commitment, CheckpointError>)
    requires cfg.confirmations >= 1
  {
    if |inputs| < cfg.confirmations then
      r == if height < cfg.confirmations then Err(FinalizedUnderflow)
           else Ok(Commitment(cfg.emptyMintsHash, cfg.emptyTxoHash, [], [], 0))
    else
      var seen := CommitmentAt(inputs, |inputs| - cfg.confirmations);
      r == if input.finalizedMintsHash != seen.mintsHash then Err(MintsHashDisagrees)
           else if input.finalizedTxoHash != seen.txoHash then Err(TxoHashDisagrees)
           else Ok(seen)
  }

  lemma {:induction false} WindowFinalizes(cfg: Config, start: nat, inputs: seq<Input>, cp: Checkpoint,
      finalized: seq<Commitment>, height: nat, input: Input)
    requires cfg.confirmations >= 1 && Window(cfg, start, inputs, cp.pending, finalized)
    requires height == start + |inputs| + 1
    ensures FinalizesUnchanged(cfg, height, inputs, input, Finalized(cfg, cp, height, input))
  {
    if |inputs| >= cfg.confirmations {
      assert cp.pending[height - cfg.confirmations] == CommitmentAt(inputs, |inputs| - cfg.confirmations);
    }
  }

  lemma {:induction false} RehashCondition(
    cfg: Config, start: u32, header: Header, inputs: seq<Input>, height: nat, input: Input)
    requires cfg.confirmations >= 1 && height == start + |inputs| + 1
    requires Run(cfg, InitialCheckpoint(cfg, start, header), inputs).Ok?
    ensures var cp := Run(cfg, InitialCheckpoint(cfg, start, header), inputs).value.checkpoint;
            cp.height == height - 1 && FinalizesUnchanged(cfg, height, inputs, input, Finalized(cfg, cp, height, input))
  {
    PendingIsTheUnconfirmedWindow(cfg, start, header, inputs);
    var Progress(cp, finalized) := Run(cfg, InitialCheckpoint(cfg, start, header), inputs).value;
    WindowFinalizes(cfg, start, inputs, cp, finalized, height, input);
  }

  lemma {:induction false} WindowStep(cfg: Config, start: nat, inputs: seq<Input>, before: Progress)
    requires cfg.confirmations >= 1 && inputs != []
    requires before.checkpoint.height == start + |inputs| - 1
    requires Window(cfg, start, inputs[..|inputs| - 1], before.checkpoint.pending, before.finalized)
    requires Step(cfg, before, inputs[|inputs| - 1]).Ok?
    ensures var after := Step(cfg, before, inputs[|inputs| - 1]).value;
            after.checkpoint.height == start + |inputs|
                && Window(cfg, start, inputs, after.checkpoint.pending, after.finalized)
  {
    var last := inputs[|inputs| - 1];
    StepHeight(cfg, before, last);
    var height := NextHeight(before.checkpoint).value;
    StepFinalizes(cfg, before, height, last);
    WindowMoves(cfg, start, inputs, before.checkpoint, height, before.finalized);
  }

  lemma {:induction false} WindowMoves(cfg: Config, start: nat, inputs: seq<Input>, before: Checkpoint, height: nat,
      finalized: seq<Commitment>)
    requires cfg.confirmations >= 1 && inputs != []
    requires height == start + |inputs| == before.height + 1
    requires Window(cfg, start, inputs[..|inputs| - 1], before.pending, finalized)
    requires Finalized(cfg, before, height, inputs[|inputs| - 1]).Ok?
    ensures Window(cfg, start, inputs,
                   before.pending[height := CommitmentAt(inputs, |inputs| - 1)] - {height - cfg.confirmations},
                   finalized + [Finalized(cfg, before, height, inputs[|inputs| - 1]).value])
  {
    var n, earlier := |inputs|, inputs[..|inputs| - 1];
    var pending := before.pending[height := CommitmentAt(inputs, n - 1)] - {height - cfg.confirmations};
    forall k {:trigger pending[k]} | k in pending
      ensures pending[k] == CommitmentAt(inputs, k - start - 1)
    {
      if k < height {
        assert before.pending[k] == CommitmentAt(earlier, k - start - 1);
      }
    }
    forall i | 0 <= i < n - 1
      ensures finalized[i] == if i >= cfg.confirmations then CommitmentAt(inputs, i - cfg.confirmations)
              else cfg.EmptyCommitment()
    {
      assert i >= cfg.confirmations ==>
          CommitmentAt(earlier, i - cfg.confirmations) == CommitmentAt(inputs, i - cfg.confirmations);
    }
  }

  lemma {:induction false} FinalizedTotalIs(cfg: Config, start: nat, inputs: seq<Input>,
      pending: map<nat, Commitment>, finalized: seq<Commitment>, n: nat)
    requires n <= |inputs| && Window(cfg, start, inputs, pending, finalized)
    ensures FinalizedTotal(finalized[..n])
            == Evaluated(inputs, if n >= cfg.confirmations then n - cfg.confirmations else 0)
  {
    if n > 0 {
      FinalizedTotalIs(cfg, start, inputs, pending, finalized, n - 1);
      assert finalized[..n][..n - 1] == finalized[..n - 1];
      assert finalized[..n][n - 1] == finalized[n - 1];
    }
  }

  lemma {:induction false} PendingTotalIs(cfg: Config, start: nat, inputs: seq<Input>, pending: map<nat, Commitment>,
      finalized: seq<Commitment>, n: nat)
    requires n <= |inputs| && Window(cfg, start, inputs, pending, finalized)
    ensures var confirmed := if |inputs| >= cfg.confirmations then |inputs| - cfg.confirmations else 0;
            PendingTotal(pending, start, start + n) == if n <= confirmed then 0
                else Evaluated(inputs, n) - Evaluated(inputs, confirmed)
  {
    if n > 0 {
      PendingTotalIs(cfg, start, inputs, pending, finalized, n - 1);
      var k := start + n;
      if k in pending {
        assert pending[k] == CommitmentAt(inputs, n - 1);
      }
    }
  }

  lemma {:induction false} StepHeader(cfg: Config, before: Progress, input: Input)
    requires Step(cfg, before, input).Ok?
    ensures var Progress(cp, finalized) := Step(cfg, before, input).value;
            && finalized != []
            && var last := finalized[|finalized| - 1];
            && cp.header.tipHeight == cp.height && cp.header.kept == before.checkpoint.header.kept
            && cp.header.mintsHash == last.mintsHash && cp.header.txoHash == last.txoHash
            && Some(cp.header.blocks) == cfg.blockFields(cp.state) && cp.header.stateHash == cfg.stateHash(cp.state)
  {
    EvolvedHeader(cfg, before.checkpoint, NextHeight(before.checkpoint).value, input);
  }

  /** The header of a run that has seen at least one block: it is bound to the state, to the block
      fields that the state yields, and to the two hashes of the block seen `confirmations` heights
      before, or to those of nothing if the run has not seen that block; what no block changes is as
      at the start. */
  ghost predicate HeaderBinds(cfg: Config, kept: Digest, inputs: seq<Input>, cp: Checkpoint) {
    && cp.header.tipHeight == cp.height && cp.header.kept == kept
    && Some(cp.header.blocks) == cfg.blockFields(cp.state) && cp.header.stateHash == cfg.stateHash(cp.state)
    && if |inputs| > cfg.confirmations then
         var seen := CommitmentAt(inputs, |inputs| - 1 - cfg.confirmations);
         cp.header.mintsHash == seen.mintsHash && cp.header.txoHash == seen.txoHash
       else
         cp.header.mintsHash == cfg.emptyMintsHash && cp.header.txoHash == cfg.emptyTxoHash
  }

  /** The same in terms of what has been finalized last. */
  ghost predicate HeaderFollows(cfg: Config, kept: Digest, cp: Checkpoint, finalized: seq<Commitment>) {
    && cp.header.kept == kept
    && (finalized != [] ==>
          && cp.header.tipHeight == cp.height
          && Some(cp.header.blocks) == cfg.blockFields(cp.state) && cp.header.stateHash == cfg.stateHash(cp.state)
          && cp.header.mintsHash == finalized[|finalized| - 1].mintsHash
          && cp.header.txoHash == finalized[|finalized| - 1].txoHash)
  }

  lemma {:induction false} RunHeaderFollows(cfg: Config, start: u32, header: Header, inputs: seq<Input>)
    requires Run(cfg, InitialCheckpoint(cfg, start, header), inputs).Ok?
    ensures var Progress(cp, finalized) := Run(cfg, InitialCheckpoint(cfg, start, header), inputs).value;
            HeaderFollows(cfg, header.kept, cp, finalized)
    decreases |inputs|
  {
    if inputs != [] {
      var earlier := inputs[..|inputs| - 1];
      RunHeaderFollows(cfg, start, header, earlier);
      StepHeader(cfg, Run(cfg, InitialCheckpoint(cfg, start, header), earlier).value, inputs[|inputs| - 1]);
    }
  }

  lemma {:induction false} WindowHeader(cfg: Config, start: nat, kept: Digest, inputs: seq<Input>, cp: Checkpoint,
      finalized: seq<Commitment>)
    requires inputs != [] && Window(cfg, start, inputs, cp.pending, finalized)
    requires HeaderFollows(cfg, kept, cp, finalized)
    ensures HeaderBinds(cfg, kept, inputs, cp)
  {
  }

  lemma {:induction false} RunHeader(cfg: Config, start: u32, header: Header, inputs: seq<Input>)
    requires cfg.confirmations >= 1 && inputs != []
    requires Run(cfg, InitialCheckpoint(cfg, start, header), inputs).Ok?
    ensures HeaderBinds(cfg, header.kept, inputs,
            Run(cfg, InitialCheckpoint(cfg, start, header), inputs).value.checkpoint)
  {
    PendingIsTheUnconfirmedWindow(cfg, start, header, inputs);
    RunHeaderFollows(cfg, start, header, inputs);
    var Progress(cp, finalized) := Run(cfg, InitialCheckpoint(cfg, start, header), inputs).value;
    WindowHeader(cfg, start, header.kept, inputs, cp, finalized);
  }

  /** With no confirmation required, a block's commitment is looked up before it is stored and
      dropped in the same step: nothing is ever pending and nothing is ever finalized. */
  lemma {:induction false} ZeroConfirmationsFinalizesNothing(cfg: Config, start: u32, header: Header,
      inputs: seq<Input>)
    requires cfg.confirmations == 0
    requires Run(cfg, InitialCheckpoint(cfg, start, header), inputs).Ok?
    ensures var Progress(cp, finalized) := Run(cfg, InitialCheckpoint(cfg, start, header), inputs).value;
            && cp.height == start + |inputs| && cp.pending == map[] && |finalized| == |inputs|
            && (forall c <- finalized :: c == cfg.EmptyCommitment())
            && FinalizedTotal(finalized) == 0
    decreases |inputs|
  {
    if inputs != [] {
      var earlier := inputs[..|inputs| - 1];
      ZeroConfirmationsFinalizesNothing(cfg, start, header, earlier);
      var before := Run(cfg, InitialCheckpoint(cfg, start, header), earlier).value;
      StepHeight(cfg, before, inputs[|inputs| - 1]);
      StepFinalizes(cfg, before, NextHeight(before.checkpoint).value, inputs[|inputs| - 1]);
      var all := Run(cfg, InitialCheckpoint(cfg, start, header), inputs).value.finalized;
      assert all[..|all| - 1] == before.finalized;
      assert all[|all| - 1] == cfg.EmptyCommitment();
    }
  }

  lemma {:induction false} NothingPendingTotal(pending: map<nat, Commitment>, start: nat, height: nat)
    requires start <= height && |pending| == 0
    ensures PendingTotal(pending, start, height) == 0
    decreases height
  {
    if start < height {
      NothingPendingTotal(pending, start, height - 1);
    }
  }

  /** What a run has finalized, and what it leaves pending. */
  function Accounted(start: nat, after: Progress): nat
    requires start <= after.checkpoint.height
  {
    FinalizedTotal(after.finalized) + PendingTotal(after.checkpoint.pending, start, after.checkpoint.height)
  }

  lemma {:induction false} WindowConserves(cfg: Config, start: nat, inputs: seq<Input>, after: Progress)
    requires cfg.confirmations >= 1 && after.checkpoint.height == start + |inputs|
    requires Window(cfg, start, inputs, after.checkpoint.pending, after.finalized)
    ensures Accounted(start, after) == Evaluated(inputs, |inputs|)
  {
    var pending, finalized := after.checkpoint.pending, after.finalized;
    FinalizedTotalIs(cfg, start, inputs, pending, finalized, |inputs|);
    assert finalized[..|inputs|] == finalized;
    PendingTotalIs(cfg, start, inputs, pending, finalized, |inputs|);
  }

  lemma {:induction false} RunConserves(cfg: Config, start: u32, header: Header, inputs: seq<Input>)
    requires cfg.confirmations >= 1
    requires Run(cfg, InitialCheckpoint(cfg, start, header), inputs).Ok?
    ensures var after := Run(cfg, InitialCheckpoint(cfg, start, header), inputs).value;
            start <= after.checkpoint.height && Accounted(start, after) == Evaluated(inputs, |inputs|)
  {
    PendingIsTheUnconfirmedWindow(cfg, start, header, inputs);
    var after := Run(cfg, InitialCheckpoint(cfg, start, header), inputs).value;
    WindowConserves(cfg, start, inputs, after);
  }

  lemma {:induction false} UnconfirmedRunLosesAll(cfg: Config, start: u32, header: Header, inputs: seq<Input>)
    requires cfg.confirmations == 0
    requires Run(cfg, InitialCheckpoint(cfg, start, header), inputs).Ok?
    ensures var after := Run(cfg, InitialCheckpoint(cfg, start, header), inputs).value;
            start <= after.checkpoint.height && Accounted(start, after) == 0
  {
    ZeroConfirmationsFinalizesNothing(cfg, start, header, inputs);
    var after := Run(cfg, InitialCheckpoint(cfg, start, header), inputs).value;
    NothingPendingTotal(after.checkpoint.pending, start, after.checkpoint.height);
  }

  /** The minted amount evaluated over a run is finalized or still pending, exactly when at least
      one confirmation is required (or there was nothing to mint). */
  lemma {:induction false} ConservationCondition(cfg: Config, start: u32, header: Header, inputs: seq<Input>)
    requires Run(cfg, InitialCheckpoint(cfg, start, header), inputs).Ok?
    ensures var after := Run(cfg, InitialCheckpoint(cfg, start, header), inputs).value;
            && start <= after.checkpoint.height
            && (Accounted(start, after) == Evaluated(inputs, |inputs|)
                <==> cfg.confirmations >= 1 || Evaluated(inputs, |inputs|) == 0)
  {
    if cfg.confirmations >= 1 {
      RunConserves(cfg, start, header, inputs);
    } else {
      UnconfirmedRunLosesAll(cfg, start, header, inputs);
    }
  }
}
