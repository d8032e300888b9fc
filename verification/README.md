# Bridge node: verified model

This project models the core logic of the Dogecoin-to-Solana bridge node and proves what it is
built to guarantee. It has five parts.

1. **Merkle engine** (`MerklePaths.dfy`, `TransactionTree.dfy`, `DepositScan.dfy`,
   `ClaimEvaluation.dfy`, `Checkpoints.dfy`, `Finalization.dfy`, `PipelineRuns.dfy`). The three path
   builders and the path fold, the scan that hands out deposit witnesses and their evaluation, and
   the evolution of the pipeline checkpoint. The frontier step, which needs O(height) work, refines
   the rebuild from the whole history; hence a pipeline that keeps no block history runs, block for
   block, like one that does, up to the limit on the history. What a block owes is finalized once,
   when it has its confirmations.
2. **Commit and crash recovery** (`CommitProtocol.dfy`, `CommitSafety.dfy`, `CommitLineage.dfy`,
   `ServiceRuns.dfy`, `DepositSafety.dfy`, `BlockPipeline.dfy`). A transition system over everything
   that outlives the process, with a crash possible between any two effects, also during recovery,
   and a submission that lands or not, answered or not. The class `BlockPipeline` has the service's
   methods; each of their effects is recorded as an event, so that every behaviour of the class is a
   run of the transition system and has its properties. Over all these runs, what is minted is what
   the pipeline of part 1 owes for the blocks it has prepared: every output that pays a custody
   script, once, when its block has its confirmations.
3. **Key/value cache** (`OrderedKeys.dfy`, `KvStore.dfy`). The write-back cache with tombstones over
   the ordered in-memory store; its meaning is the merged map.
4. **Aggregation planner** (`TreePlanner.dfy`).
5. **Proof queue and retry loop** (`ProofQueue.dfy`, `NetworkRetry.dfy`). Content-addressed jobs, the
   submit script, fenced leases, and the bounded retry loop.

`Common.dfy` has results, machine integers and shifts. Text and byte buffers are sequences of bytes;
where 32-bit or 64-bit arithmetic shows, the bound is explicit (checked, saturating or truncating as
in the source).

## Assumptions

They are parameters or hypotheses of the statements, not axioms.

- Hashes are arbitrary functions. Merkle statements need nothing of them; statements about job ids
  conclude "or here is a collision". The table of zero hashes is the one generated by
  `Z[d+1] = H(Z[d], Z[d])`.
- The state of a new checkpoint has the roots the transition builder reaches from the witness: the
  block root folded along the witness path, and the claim tree with the new deposits appended.
- What the state records of its blocks (hashes, times, fees) is one value; the header fields taken
  from it, and the hash of the state, are arbitrary functions of the state.
- Fees, TXO indices, leaf hashes and block summaries of the transition builder are arbitrary
  functions; its check of a transaction is the fold of the inclusion path.
- The blocks of the Dogecoin chain do not change: what is offered for a height is an evaluation of
  the one block there, with its hashes and those of the block it finalizes. This is a hypothesis of
  the statements about deposits and about recomputed hashes only.
- The pending-mint and TXO-list hashes are an arbitrary function of what the scan of a block emits
  (`DepositSafety.Bridge`). The frontier siblings, which the recomputation replaces by zero hashes,
  have no part in them.
- The sender answers only for an update that has landed; the on-chain tracker skips a group that was
  claimed; the chain takes an update only if it starts from the current header.
- The header of the initial checkpoint has the checkpoint's own height as its tip. Until the first
  commit the initial checkpoint is not stored, so a restart has to derive it again:
  `Checkpoints.InitialCheckpointIsStable` says when that gives the same one. The protocol takes it
  as fixed; `ServiceRuns.UnconfiguredStartFailsClosed` shows what happens otherwise.
- The end-to-end theorem asks for at least one required confirmation; `Finalization.ConservationCondition`
  says what happens without.
- A submission left behind by a crash does not land after the service has been started again.
  `CommitSafety.FailClosedCondition` shows that crash safety holds exactly under this assumption.

## Where the code falls short of what it is for

Each is proved, with the exact condition under which the code does meet the property.

- The cached `get_leq` and `get_leq_kv` scan their window upwards and take the first live key, and do
  not filter the store's answer by tombstones (`KvStore.CachedLookupCondition`,
  `KvStore.TombstoneResurfaces`). Point reads, range reads and flushes agree with the merged map
  unconditionally.
- With zero required confirmations a commitment is looked up before it is inserted and removed in the
  same step, so it is never finalized (`Finalization.ConservationCondition`).
- A pipeline that starts at 1,000,000 or below stores its block history, and validation caps it: it
  prepares no block at height 1,000,000 or above, while one that starts later stores none and goes
  on (`PipelineRuns.ModesPartAtTheLimit`). At a start of 999,999 or 1,000,000 not even the first
  block gets through.
- Without a configured start height, a first commit that crashes once its update has landed cannot be
  recovered after the tip has moved (`ServiceRuns.UnconfiguredStartFailsClosed`).
- The answer of a cached delete is wrong for a key that only the store has, also when a proper answer
  is asked for, and for a key deleted before (`KvStore.DeleteAnswerCondition`).
- A mint call that makes progress before a network error can only stop the process, because the last
  attempt is expected to have minted everything itself; recovery then finishes
  (`BlockPipelineService.BlockPipeline.ProcessMints`).
- A retry policy with a deadline alone ends, but if its delays are zero the deadline bounds only the
  time, not the number of attempts (`NetworkRetry.AttemptBoundCondition`).
- The first backoff is not capped by the maximum delay (`NetworkRetry.BackoffCapCondition`).

A single deposit whose leaf equals the empty leaf would read as no deposit at all
(`Checkpoints.FrontiersCondition`). That is a theoretical case: the empty leaf is a fixed
constant, and such a deposit would be a SHA-256 preimage of it.

## Model

| member | source | states |
|---|---|---|
| `MerklePaths.IncrementalRefinesFull` | qed_dsol_ibc_node_common/src/block_pipeline.rs:2594-2665 | For every height, leaf height, non-empty history and appended leaf, the path built from the previous leaf and its path alone is the path built from the whole history. |
| `MerklePaths.TreeOfHalves` | qed_dsol_ibc_node_common/src/block_pipeline.rs:2594-2625 | The zero-padded tree against the recursion on halves: height 0 is the leaf or the zero hash, above it the first 2^h leaves are the left half and the others the right half; the zero hashes are Z(0) and Z(h+1) = H(Z(h), Z(h)). |
| `MerklePaths.PathIndependentOfLeaf` | qed_dsol_ibc_node_common/src/block_pipeline.rs:2402-2412 | The path of a last leaf does not depend on that leaf, so a witness made with an empty leaf in the place of the new block already has the final path. |
| `MerklePaths.PathReachesRoot` | qed_dsol_ibc_node_common/src/block_pipeline.rs:2594-2682 | For every target below the number of leaves, at most 2^height, folding the target along its path gives the root of the full zero-padded tree, the same for every target. |
| `MerklePaths.FrontierRootIsTreeRoot` | qed_dsol_ibc_node_common/src/block_pipeline.rs:2627-2682 | The root read off the frontier of a history, and the root after one more incremental append, are the full tree's roots. |
| `MerklePaths.CarriedIsLeftSibling` | qed_dsol_ibc_node_common/src/block_pipeline.rs:2645-2663 | Carry step: on each level where the new index has a one bit, the node the frontier step stored there is the new leaf's left sibling. |
| `MerklePaths.RightOfLastIsZero` | qed_dsol_ibc_node_common/src/block_pipeline.rs:2602-2615 | Every node to the right of the last leaf's ancestor has the zero hash of its level. |
| `MerklePaths.LeftOfTargetIsUnchanged` | qed_dsol_ibc_node_common/src/block_pipeline.rs:2602-2623 | Every node to the left of a leaf's ancestor is the same in two histories that agree before that leaf. |
| `MerklePaths.ClimbVisitsAncestors` | qed_dsol_ibc_node_common/src/block_pipeline.rs:2667-2677 | Folding the first k siblings of a leaf's own path gives its ancestor on level k. |
| `MerklePaths.SparseSha256MerkleSiblings` | qed_dsol_ibc_node_common/src/block_pipeline.rs:2594-2625 | The loop over padded levels returns, for each level, the node of the infinite zero-padded tree beside the target's ancestor; a target outside the leaves is refused. |
| `MerklePaths.SequentialNextLeafSiblings` | qed_dsol_ibc_node_common/src/block_pipeline.rs:2627-2665 | Which of the three errors is returned when, and otherwise the next leaf's path in terms of the climbed nodes. |
| `MerklePaths.FrontierRoot` | qed_dsol_ibc_node_common/src/block_pipeline.rs:2667-2682 | The loop folds the path by the bits of the index; it refuses a wrong number of siblings and, exactly, an index of 2^height or more. |
| `TransactionTree.TxPathReachesRoot` | qed_dsol_ibc_node_common/src/block_pipeline.rs:2551-2592 | For every non-empty transaction list and every index, folding the inclusion path by the bits of the index gives the block root, and no bit of the index is left over. |
| `TransactionTree.RootOfPairs` | qed_dsol_ibc_node_common/src/block_pipeline.rs:2551-2567 | The block root against the recursion on rounds: one id is its own root; more have the root of their pairs, left before right, an odd last one paired with itself. |
| `TransactionTree.ParentOfPair` | qed_dsol_ibc_node_common/src/block_pipeline.rs:2556-2564 | Every parent hashes a node with the one it is paired with, itself if it is the last of an odd level, on the side the index says. |
| `TransactionTree.WidthAtDepth` | qed_dsol_ibc_node_common/src/block_pipeline.rs:2556-2565 | The loops stop at the first level that is one node wide. |
| `TransactionTree.BitcoinMerkleRoot` | qed_dsol_ibc_node_common/src/block_pipeline.rs:2551-2567 | The loop over completed levels computes the root of the tree defined from the root down; an empty list has none. |
| `TransactionTree.BitcoinMerkleSiblings` | qed_dsol_ibc_node_common/src/block_pipeline.rs:2569-2592 | The loop returns on every level the node paired with the transaction's ancestor; an index out of bounds is refused. |
| `DepositScan.ScanManagerCustodyDeposits` | qed_dsol_ibc_node_common/src/block_pipeline.rs:2302-2364 | An empty block and a wrong root are refused; otherwise the scan succeeds exactly when the count and all stored indices fit 32 bits, with the specified count and witnesses; an overflow error names what does not fit. |
| `DepositScan.ScanTransactions` | qed_dsol_ibc_node_common/src/block_pipeline.rs:2334-2363 | The outer loop: running count, witnesses, and overflow exactly when the whole block overflows. |
| `DepositScan.ScanOutputs` | qed_dsol_ibc_node_common/src/block_pipeline.rs:2336-2351 | The inner loop: the deposits of one transaction, with the exact condition for overflow. |
| `DepositScan.DepositsAreMatchingOutputs` | qed_dsol_ibc_node_common/src/block_pipeline.rs:2336-2346 | The deposits of a transaction are exactly its outputs that equal an expected script, in order, each once, with the first script that matches. |
| `DepositScan.WitnessesVerify` | qed_dsol_ibc_node_common/src/block_pipeline.rs:2352-2361 | Every emitted witness carries its own transaction and all its deposits, and verifies against the root of the block. |
| `DepositScan.WitnessesInOrder` | qed_dsol_ibc_node_common/src/block_pipeline.rs:2334-2361 | Witnesses come in block order without repetition. |
| `DepositScan.WitnessesComplete` | qed_dsol_ibc_node_common/src/block_pipeline.rs:2334-2361 | No transaction with a deposit is missed. |
| `ClaimEvaluation.EvaluateClaimWitness` | qed_dsol_ibc_node_common/src/block_pipeline.rs:2466-2521 | The loops check each transaction and append one mint, one TXO index and one leaf for each deposit, as `ClaimEvaluation.EvaluationMeaning` spells out. |
| `ClaimEvaluation.EvaluationMeaning` | qed_dsol_ibc_node_common/src/block_pipeline.rs:2466-2521 | For any witness: the evaluation succeeds if and only if every transaction path folds to the block root, every deposit names a recipient and an output whose fee and index are defined, and their number is the announced one; then, deposit by deposit and in order, it claims the net value for the recipient that the deposit names, the index of the output, and the leaf of transaction id, output, recipient and net value. Otherwise the first transaction that lacks something decides, with the error of what it lacks. |
| `ClaimEvaluation.ClaimDeposit` | qed_dsol_ibc_node_common/src/block_pipeline.rs:2474-2505 | One deposit: recipient, net value, index and leaf of the claim, or the first of the four errors that applies. |
| `ClaimEvaluation.AddDeposits` | qed_dsol_ibc_node_common/src/block_pipeline.rs:2473-2505 | The inner loop: the three lists grow side by side by the claims of one transaction, or its first error is returned. |
| `ClaimEvaluation.EvaluationOfScan` | qed_dsol_ibc_node_common/src/block_pipeline.rs:2302-2521 | What the scan of a block emits evaluates if and only if fee and TXO index of each of its payments are defined; then each payment, in block order, claims the net value of its output for the recipient of the script it pays, the index of the output, and the leaf of both; otherwise the first payment that lacks one of them decides. Neither the check of a transaction, nor an index, nor the final count ever fails. |
| `ClaimEvaluation.PaymentsAreMatchingOutputs` | qed_dsol_ibc_node_common/src/block_pipeline.rs:2334-2361 | The payments of a block are exactly its outputs that pay an expected script, in block order, each once and with the first script that matches. |
| `DepositScan.CountIsTotal` | qed_dsol_ibc_node_common/src/block_pipeline.rs:2347-2363 | The returned count is the number of deposits in all witnesses. |
| `Checkpoints.RunWithoutHistoryIsSame` | qed_dsol_ibc_node_common/src/block_pipeline.rs:1234-1350 | Mode equivalence of the evolution: from a fresh checkpoint, any evolution that keeps no block history yields the same frontier, state, pending set and finalized commitments as the one that keeps it, or the same error. (With the validations in between: `PipelineRuns.ModesPartAtTheLimit`.) |
| `Checkpoints.RunTracks` | qed_dsol_ibc_node_common/src/block_pipeline.rs:1305-1336 | After any number of blocks the frontier is that of all blocks so far, its index is the height, and the state has their root. |
| `Checkpoints.AdvanceTracks` | qed_dsol_ibc_node_common/src/block_pipeline.rs:2376-2412 | In both modes the witness carries the claim frontier's own path, and for the next block the path its frontier gets. |
| `Checkpoints.EvolveTracks` | qed_dsol_ibc_node_common/src/block_pipeline.rs:1287-1350 | One step keeps the checkpoint the image of the blocks and deposits it stands for. |
| `Checkpoints.RunClaims` | qed_dsol_ibc_node_common/src/block_pipeline.rs:1287-1303 | After any number of blocks the claim tree holds exactly their deposits, block by block, and root, next claim and the rest of the state follow. |
| `Checkpoints.EvolvedParts` | qed_dsol_ibc_node_common/src/block_pipeline.rs:1253-1350 | Each part of the next checkpoint: state, histories and frontiers. |
| `Checkpoints.EvolvedHeader` | qed_dsol_ibc_node_common/src/block_pipeline.rs:1277-1284 | The header of the next checkpoint is that of its height and state, with the two hashes of the commitment that is finalized now; what no block changes is as before. |
| `Checkpoints.BuildNewHeader` | qed_dsol_ibc_node_common/src/block_pipeline.rs:2727-2768 | The new header field by field: tip height, block fields, finalized hashes and state hash are replaced, the others kept; it is refused exactly if the state has no record of the blocks. |
| `Checkpoints.EvolveCondition` | qed_dsol_ibc_node_common/src/block_pipeline.rs:1194-1350 | Out of any checkpoint a step succeeds if and only if witness paths, finalized commitment, header and TXO frontier each do; the pending set gains the block and loses the one that is finalized. |
| `Checkpoints.WitnessMeaning` | qed_dsol_ibc_node_common/src/block_pipeline.rs:2376-2412 | Out of any checkpoint: when both witness paths exist, and that they are the stored ones or those of the zero-padded trees. |
| `Checkpoints.AdvanceTxoMeaning` | qed_dsol_ibc_node_common/src/block_pipeline.rs:1305-1336 | Out of any checkpoint: when the TXO frontier advances, and to what; a stored history has to end right below the new height. |
| `Checkpoints.FinalizedMeaning` | qed_dsol_ibc_node_common/src/block_pipeline.rs:2265-2299 | Out of any checkpoint: the commitment pending from r heights before, if and only if both recomputed hashes are its own; the empty one, with both its hashes, if none is pending. |
| `Checkpoints.InitialTracks` | qed_dsol_ibc_node_common/src/block_pipeline.rs:2054-2077 | A fresh checkpoint stands for an untouched tree up to its height. |
| `Checkpoints.InitialCheckpointIsStable` | qed_dsol_ibc_node_common/src/block_pipeline.rs:2027-2033 | Deriving the initial checkpoint twice gives the same one if and only if the start height is configured or the tip has not moved. |
| `Checkpoints.StartCondition` | qed_dsol_ibc_node_common/src/block_pipeline.rs:2023-2078 | A start succeeds if and only if its height has its confirmations (height + r <= tip) and 31 blocks below it; without a configured height it starts at exactly tip - r; nothing is pending then, and the block history is stored up to height 1,000,000. |
| `Checkpoints.FrontiersCondition` | qed_dsol_ibc_node_common/src/block_pipeline.rs:2684-2725 | The frontiers of a checkpoint that stands for its blocks agree with its state if and only if the trees can hold its indices and it does not hold a single deposit equal to the empty leaf. |
| `Checkpoints.ValidationCondition` | qed_dsol_ibc_node_common/src/block_pipeline.rs:3592-3652 | A checkpoint that stands for its blocks validates if and only if its histories are within the cap, its indices fit the trees, and it does not hold a single deposit equal to the empty leaf. |
| `Checkpoints.ValidationMeaning` | qed_dsol_ibc_node_common/src/block_pipeline.rs:3592-3652 | What validation accepts of any checkpoint: tip and TXO frontier at its height, both frontiers folding to the roots of its state, the next claim right after the claim frontier, and histories of at most 1,000,000 that end in its frontiers; nothing else. |
| `Checkpoints.ValidatedRoots` | qed_dsol_ibc_node_common/src/block_pipeline.rs:3592-3652 | So the roots of a validated checkpoint are those of the full zero-padded trees over the histories it stores. |
| `Checkpoints.CheckMeaning` | qed_dsol_ibc_node_common/src/block_pipeline.rs:1179-1187 | The check of the old checkpoint accepts exactly tip, frontiers and next claim that agree with its state. |
| `Checkpoints.PrepareCondition` | qed_dsol_ibc_node_common/src/block_pipeline.rs:1164-1351 | Preparing the next height succeeds if and only if the old checkpoint fits the trees, the bare evolution succeeds and its result is within the limits, and then gives that result; the limit on the histories is not asked of the old checkpoint. |
| `Checkpoints.PrepareMeaning` | qed_dsol_ibc_node_common/src/block_pipeline.rs:1164-1351 | Out of any checkpoint, preparing a height succeeds if and only if the checkpoint agrees with its own state, the step succeeds and its result validates; the first of the three that does not decides the error. |
| `Checkpoints.EvolveWithoutHistoryIsSame` | qed_dsol_ibc_node_common/src/block_pipeline.rs:1234-1350 | One step with and without the block history: same error, or same checkpoint but for the history, and same finalized commitment. |
| `Checkpoints.PrepareHeight` | qed_dsol_ibc_node_common/src/block_pipeline.rs:1164-1351 | The old checkpoint is checked against its state, evolved and validated, in that order; errors as specified. |
| `Checkpoints.EvolveCheckpoint` | qed_dsol_ibc_node_common/src/block_pipeline.rs:1194-1350 | Witness paths, finalized commitment, frontiers, histories and pending window, in that order, with the error of each; the result is the specified next checkpoint. |
| `Checkpoints.AdvanceTxoMethod` | qed_dsol_ibc_node_common/src/block_pipeline.rs:1305-1336 | The two ways to advance the TXO frontier, and their errors. |
| `Checkpoints.WitnessSiblings` | qed_dsol_ibc_node_common/src/block_pipeline.rs:2376-2412 | The two ways to build each of the witness's paths, last claimed deposit and next block, and their errors. |
| `PipelineRuns.ModesPartAtTheLimit` | qed_dsol_ibc_node_common/src/block_pipeline.rs:1164-1351 | Mode equivalence of the service, every height validated before and after: with and without the block history a run from a fresh checkpoint has the same outcome, errors included, as long as the history has room; from then on the pipeline that keeps it prepares nothing. So from a start s of at most 1,000,000, n >= 1 blocks get through only if s + n < 1,000,000. |
| `PipelineRuns.PrepareModes` | qed_dsol_ibc_node_common/src/block_pipeline.rs:1164-1351 | The same for one height: the modes differ only when the stored history is full. |
| `PipelineRuns.NextPreparation` | qed_dsol_ibc_node_common/src/block_pipeline.rs:1091-1097 | The next height is one above, and past the last 32-bit height there is none to prepare. |
| `PipelineRuns.PrepareRunCondition` | qed_dsol_ibc_node_common/src/block_pipeline.rs:1164-1351 | A fresh pipeline gets through its blocks if and only if the bare evolution does and every checkpoint on the way is within the limits. |
| `PipelineRuns.PrepareRunIsRun` | qed_dsol_ibc_node_common/src/block_pipeline.rs:1164-1351 | Whatever the service gets through is a run of the bare evolution, with the same result. |
| `Checkpoints.ValidateCheckpointMethod` | qed_dsol_ibc_node_common/src/block_pipeline.rs:3592-3652 | The checks of a checkpoint, in order, each with its error. |
| `Checkpoints.ValidateFrontiersAgainstState` | qed_dsol_ibc_node_common/src/block_pipeline.rs:2684-2725 | The checks of both frontiers against the state, in order, each with its error. |
| `Finalization.PendingIsTheUnconfirmedWindow` | qed_dsol_ibc_node_common/src/block_pipeline.rs:1234-1350 | With r >= 1 confirmations, over every run: pending at height h are exactly the heights k with max(start, h-r) < k <= h, each with its own block's commitment, and each block is finalized once, by the block r later. |
| `Finalization.ConservationCondition` | qed_dsol_ibc_node_common/src/block_pipeline.rs:1234-1350 | Over every run, the minted amount evaluated equals finalized plus pending, if and only if at least one confirmation is required or nothing was evaluated. |
| `Finalization.ZeroConfirmationsFinalizesNothing` | qed_dsol_ibc_node_common/src/block_pipeline.rs:1234-1350 | With no confirmation required nothing is ever pending, and every finalized commitment is the empty one. |
| `Finalization.RehashCondition` | qed_dsol_ibc_node_common/src/block_pipeline.rs:2265-2299 | After any run of n blocks, with r >= 1 confirmations, the next height finalizes the empty commitment (with the empty mints and TXO hashes) if n < r, and otherwise the block seen r heights before, if and only if both hashes recomputed from it are those committed to; the refusal names the hash that has changed. |
| `Finalization.RunHeader` | qed_dsol_ibc_node_common/src/block_pipeline.rs:2727-2768 | After any run of n >= 1 blocks the header is bound to the height, to the state and its block fields, and to the two hashes of the block seen r heights before, or to the two empty ones if n <= r; what no block changes is as at the start. |
| `CommitProtocol.ApplyKeepsInv` | qed_dsol_ibc_node_common/src/block_pipeline.rs:1461-1579 | Every event, crashes included, keeps the commit invariant. |
| `CommitProtocol.AdvanceCommitKeepsInv` | qed_dsol_ibc_node_common/src/block_pipeline.rs:1461-1579 | Every effect of a commit keeps it: journal, upload, journal, submission, answer, journal, mints, journal, checkpoint, journal removal. |
| `CommitProtocol.AdvanceRecoveryKeepsInv` | qed_dsol_ibc_node_common/src/block_pipeline.rs:3325-3391 | Every effect of a recovery keeps it. |
| `CommitProtocol.ReconcileKeepsInv` | qed_dsol_ibc_node_common/src/block_pipeline.rs:3271-3395 | What a start decides from the stored checkpoint, the journal and the header keeps it. |
| `CommitProtocol.LandKeepsInv` | qed_dsol_ibc_node_common/src/block_pipeline.rs:1517-1529 | A submitted update that takes effect at any moment, seen or not, keeps it. |
| `CommitProtocol.MintKeepsInv` | qed_dsol_ibc_node_common/src/block_pipeline.rs:1663-1702 | Minting any group that the tracker does not have keeps it. |
| `CommitSafety.CrashSafety` | qed_dsol_ibc_node_common/src/block_pipeline.rs:3464-3531 | At every moment of every run the stored checkpoint matches the chain, or a journal exactly one above it does and carries buffers and commitment; a restart never fails closed. |
| `CommitSafety.MintedExactlyOnce` | qed_dsol_ibc_node_common/src/block_pipeline.rs:1461-1579 | Over every run with crashes: no group is minted twice, out of block order or without authorisation, and everything authorised up to the stored checkpoint is minted. |
| `CommitSafety.SubmittedOnlyAfterMints` | qed_dsol_ibc_node_common/src/block_pipeline.rs:1517-1579 | No update is submitted, and no commit under way, for a height whose predecessors' mints are incomplete. |
| `CommitSafety.CommitIsAtomic` | qed_dsol_ibc_node_common/src/block_pipeline.rs:1461-1579 | Whatever interrupts a commit, whenever a process runs again it has either taken full effect, as if uninterrupted, or none; the on-chain header tells which. |
| `CommitProtocol.GroupsMeaning` | qed_dsol_ibc_node_common/src/block_pipeline.rs:1663-1702 | Each mint group holds a mint, and each mint is in a group. |
| `CommitProtocol.RecoveryDecides` | qed_dsol_ibc_node_common/src/block_pipeline.rs:3464-3531 | What a recovery plans, exactly: up to date or a stale journal if the stored header is the chain's; promotion or completion if and only if the journal is one height above, has the chain's header and either has its mints done or knows what to mint; else it fails closed. |
| `CommitProtocol.ReconciledMeaning` | qed_dsol_ibc_node_common/src/block_pipeline.rs:3271-3395 | A start runs exactly on a stored checkpoint with the chain's own header, and goes on with a valid journal exactly where the plan says so. |
| `CommitProtocol.RecoveryStepMeaning` | qed_dsol_ibc_node_common/src/block_pipeline.rs:3325-3391 | The recovery effect by effect: promotion only once the whole commitment is minted, then the stored checkpoint, then the removal of the journal; a process goes on only with a checkpoint that has the chain's header. |
| `CommitSafety.RecoveryCompletes` | qed_dsol_ibc_node_common/src/block_pipeline.rs:3271-3395 | From every state a crash can leave there is a run of the restart, minting exactly what is missing, that reaches a running process. |
| `CommitSafety.RemainingGroupsCanBeMinted` | qed_dsol_ibc_node_common/src/block_pipeline.rs:3343-3379 | Minting the groups that the tracker does not have yet completes the mints. |
| `CommitSafety.LateLandingFailsClosed` | qed_dsol_ibc_node_common/src/block_pipeline.rs:3282-3316 | If a submission can land after a restart has discarded its journal, every first commit can end in a start that fails closed. |
| `CommitSafety.FailClosedCondition` | qed_dsol_ibc_node_common/src/block_pipeline.rs:3271-3395 | Some run fails closed if and only if submissions can land after a restart. |
| `CommitSafety.MovedStartFailsClosed` | qed_dsol_ibc_node_common/src/block_pipeline.rs:3464-3531 | After a first commit whose update has landed, a restart from another initial checkpoint fails closed if and only if the journal is not exactly one above that one. |
| `CommitLineage.LineOf` | qed_dsol_ibc_node_common/src/block_pipeline.rs:1461-1579 | Every run with crashes has one unbroken line of transitions, each prepared from the one before, such that at each of its moments the chain has taken a prefix of the line, the stored checkpoint is on that prefix, and what may be minted at a height is the commitment that was prepared with it. |
| `CommitLineage.LandingExtendsLine` | qed_dsol_ibc_node_common/src/block_pipeline.rs:1517-1535 | An update that lands extends the line by exactly what the journal holds. |
| `CommitLineage.CommitKeepsLine` | qed_dsol_ibc_node_common/src/block_pipeline.rs:1461-1579 | Every other effect of a commit keeps the line, the promotion of the checkpoint included. |
| `CommitLineage.RecoveryKeepsLine` | qed_dsol_ibc_node_common/src/block_pipeline.rs:3318-3391 | So does every effect of a recovery. |
| `ServiceRuns.MintsWhatBlocksOwe` | qed_dsol_ibc_node_common/src/block_pipeline.rs:1234-1251 | With at least one confirmation: for every run with crashes there is one sequence of blocks such that at each of its moments the chain and the stored checkpoint are where preparing a prefix of these blocks leads, the update to height h authorises the commitment of block h - r (the empty one for the first heights), nothing else is ever minted, and up to the stored checkpoint all of it is, each group once. |
| `DepositSafety.OutputIsMinted` | qed_dsol_ibc_node_common/src/block_pipeline.rs:2302-2514 | End to end: over every run with crashes, an output of a confirmed block that pays a custody script is exactly one of the payments of its block; in the place of that payment, the commitment that the update r blocks later authorised mints the value of the output less the fee for the recipient whose custody script the output pays, and lists the index of the output; and the group the mint falls into has been minted. |
| `DepositSafety.DepositsAreMintedOnce` | qed_dsol_ibc_node_common/src/block_pipeline.rs:1234-1251 | Over every run with crashes: what each confirmed block owes is, payment by payment and in block order, the net value for the recipient of the script paid, and the index of the output; all of it has been minted, each group once and block by block; and every group that has been minted holds a mint of a block that then had its confirmations. |
| `DepositSafety.OutputIsOnePayment` | qed_dsol_ibc_node_common/src/block_pipeline.rs:2334-2361 | An output that pays a custody script is exactly one of its block's payments. |
| `DepositSafety.FinalizedBlockCondition` | qed_dsol_ibc_node_common/src/block_pipeline.rs:2235-2299 | After any run of the pipeline, the block that the next height finalizes is accepted if and only if the scan of what is there now hashes as the scan of the block that was seen there did. |
| `DepositSafety.UnchangedChainAgrees` | qed_dsol_ibc_node_common/src/block_pipeline.rs:2235-2299 | So, while the chain does not change, preparing a block on top of any run never finds that a hash disagrees. |
| `DepositSafety.EvaluateBlock` | qed_dsol_ibc_node_common/src/block_pipeline.rs:2367-2514 | Scan, then evaluation: the result is the one the statements about deposits are about, or there is none. |
| `DepositSafety.BlockEvaluation` | qed_dsol_ibc_node_common/src/block_pipeline.rs:2302-2514 | A block evaluates to lists if and only if its transactions hash to its root, all indices fit, every payment is defined and the lists have the claim of each payment, in block order. |
| `ServiceRuns.LineIsRun` | qed_dsol_ibc_node_common/src/block_pipeline.rs:1164-1351 | A line of prepared transitions is a run of the pipeline over some blocks, prefix by prefix. |
| `ServiceRuns.UnconfiguredStartFailsClosed` | qed_dsol_ibc_node_common/src/block_pipeline.rs:2027-2033 | With no start height configured, the crash of a first commit whose update has landed is followed by a start that fails closed if and only if the tip has moved. |
| `ServiceRuns.ChainHeaderBinds` | qed_dsol_ibc_node_common/src/block_pipeline.rs:2727-2768 | Over every run with crashes: the on-chain header is that of the checkpoint the blocks lead to, bound as `Finalization.RunHeader` says, and carries the two hashes of exactly what the update to its height authorised minting. |
| `BlockPipelineService.OrderedProofAction` | qed_dsol_ibc_node_common/src/block_pipeline.rs:878-891 | It commits only the height after the committed one, only if its proof is ready, and idles exactly when that height is not in flight. |
| `BlockPipelineService.WindowGrows` | qed_dsol_ibc_node_common/src/block_pipeline.rs:1088-1128 | Planning one more height from the planned checkpoint keeps the window: exactly committed+1..planned in flight, at most a window of them, each with checkpoint and commitment prepared from the one before and with its fingerprint. |
| `BlockPipelineService.WindowAdvances` | qed_dsol_ibc_node_common/src/block_pipeline.rs:1130-1146 | The next height in flight was prepared from the committed checkpoint, passes the height and parent checks of the commit, and committing it keeps the window. |
| `BlockPipelineService.BlockPipeline.PollOnce` | qed_dsol_ibc_node_common/src/block_pipeline.rs:1066-1161 | Exactly when each failure is returned, and with what: no tip; what planning the next height gives, when the poll stops although the window has room and the next height has its confirmations; otherwise what the ordered action and the check of the public values refuse. Every newly planned height h has its confirmations (h + r <= tip), a block and an accepted proof job. Unless the action is to commit and the proof binds, checkpoint and world stay as they are, whatever the poll returns; if it does, a transition prepared from the committed checkpoint is begun, exactly one, and success is its full commit. The height and parent checks never fire, and a successful poll leaves the window invariant. |
| `BlockPipelineService.BlockPipeline.PollWithTip` | qed_dsol_ibc_node_common/src/block_pipeline.rs:1087-1148 | The same once the finalized tip is known; the answer tells whether anything was planned or committed. |
| `BlockPipelineService.VerdictForWindow` | qed_dsol_ibc_node_common/src/block_pipeline.rs:878-891 | With exactly the planned heights in flight, the verdict of a poll depends on the proof of the next height only: not in flight, pending, failed, not binding, or to be committed. |
| `BlockPipelineService.BlockPipeline.PlanAhead` | qed_dsol_ibc_node_common/src/block_pipeline.rs:1088-1128 | The planning loop fills the window or reaches the finalized tip, keeping the window invariant; it fails exactly if it stops before that, with what planning the next height then gives, and answers whether it planned anything. |
| `BlockPipelineService.BlockPipeline.PlanNext` | qed_dsol_ibc_node_common/src/block_pipeline.rs:1090-1125 | One more height goes in flight, at a place not yet taken: exactly what planning its block on the planned checkpoint gives, which becomes the planned checkpoint; the rest stays. A failure is the one planning gives, and changes nothing. |
| `BlockPipelineService.BlockPipeline.PrepareAndSubmit` | qed_dsol_ibc_node_common/src/block_pipeline.rs:1090-1118 | What planning the height gives, as `BlockPipelineService.PlanMeaning` spells out; a transition is valid, prepared from the planned checkpoint, with its fingerprint, and its job was accepted. |
| `BlockPipelineService.PlanMeaning` | qed_dsol_ibc_node_common/src/block_pipeline.rs:1090-1118 | What planning a height gives: the old checkpoint's own refusal, a missing block, a failed preparation, a refused job, in this order; otherwise height, checkpoint and commitment that preparing the block gives, with the fingerprint of the checkpoint below. |
| `BlockPipelineService.BlockPipeline.PlannedFollowsBlocks` | qed_dsol_ibc_node_common/src/block_pipeline.rs:1087-1146 | In every running service the planned checkpoint is where a run of the pipeline over some blocks leads; up to the committed height these blocks are what the chain, the stored checkpoint and the mints follow. |
| `BlockPipelineService.BlockPipeline.PlanFindsNoChange` | qed_dsol_ibc_node_common/src/block_pipeline.rs:2265-2299 | While the Dogecoin chain does not change, no running service ever fails to plan a height because a recomputed hash disagrees. |
| `BlockPipelineService.BlockPipeline.CommitNext` | qed_dsol_ibc_node_common/src/block_pipeline.rs:1130-1147 | Commits the next height exactly as the ordered action says and the public values allow, with the error of each refusal; otherwise, also when it does not succeed, it has no effect. |
| `BlockPipelineService.BlockPipeline.CommitExpected` | qed_dsol_ibc_node_common/src/block_pipeline.rs:1135-1146 | A proof that does not come, fails or does not bind stops the poll with its error and without any effect; otherwise exactly one transition is begun, prepared from the committed checkpoint, and success is its full commit. |
| `BlockPipelineService.BlockPipeline.CommitPrepared` | qed_dsol_ibc_node_common/src/block_pipeline.rs:1393-1579 | Exact conditions of each refusal, which leaves the world alone and begins nothing; otherwise the transition is begun, once, and success leaves exactly the world of a completed commit; every effect and every crash in between is a run of the protocol. |
| `BlockPipelineService.BlockPipeline.StoreBuffers` | qed_dsol_ibc_node_common/src/block_pipeline.rs:1462-1495 | Journal, upload, journal: the new world, or a stop on the way. |
| `BlockPipelineService.BlockPipeline.SubmitBlockUpdate` | qed_dsol_ibc_node_common/src/block_pipeline.rs:1517-1535 | The submission lands or not and is answered or not; only an answer goes on, with the header advanced. What lands later, before the next start, is the business of that start. |
| `BlockPipelineService.BlockPipeline.RecordSignature` | qed_dsol_ibc_node_common/src/block_pipeline.rs:1536-1550 | The journal gets the signature; at that moment none of the groups has been minted. |
| `BlockPipelineService.BlockPipeline.ProcessMints` | qed_dsol_ibc_node_common/src/block_pipeline.rs:1536-1553 | Journal the signature, then mint exactly the groups of the commitment. Unless it is interrupted it gets through if and only if no earlier attempt of the mint call, ended by a network error, had minted anything. |
| `BlockPipelineService.BlockPipeline.MintAll` | qed_dsol_ibc_node_common/src/block_pipeline.rs:1663-1702 | The mint call with its retries: unless interrupted, its last attempt gets through if and only if the tracker, as it found it, had none of the height's groups, and the process stops otherwise; either way all groups are minted then. |
| `BlockPipelineService.BlockPipeline.MintUnclaimed` | qed_dsol_ibc_node_common/src/block_pipeline.rs:3343-3379 | One group is minted if and only if the tracker does not have it. |
| `BlockPipelineService.BlockPipeline.RecordProgress` | qed_dsol_ibc_node_common/src/block_pipeline.rs:1554-1568 | Journal the completed mints. |
| `BlockPipelineService.BlockPipeline.PromoteNext` | qed_dsol_ibc_node_common/src/block_pipeline.rs:1569-1579 | Checkpoint in memory, checkpoint in Redis, journal removed. |
| `BlockPipelineService.BlockPipeline.ProcessRemainingGroups` | qed_dsol_ibc_node_common/src/block_pipeline.rs:3343-3379 | Mints exactly the groups the tracker does not have, one by one, and counts them; the count is complete if and only if the tracker had none of them. |
| `BlockPipelineService.BlockPipeline.ReconcileCheckpointJournal` | qed_dsol_ibc_node_common/src/block_pipeline.rs:3271-3395 | Returns the stored checkpoint if it matches the chain, the journal's otherwise, which then exists; only an interruption stops it. |
| `BlockPipelineService.BlockPipeline.RecoverFromJournal` | qed_dsol_ibc_node_common/src/block_pipeline.rs:3318-3391 | Completes the mints if need be and promotes the journal's checkpoint. |
| `BlockPipelineService.BlockPipeline.Boot` | qed_dsol_ibc_node_common/src/block_pipeline.rs:933-937 | A start reads the header, to which an update left behind may have been added in the meantime. |
| `BlockPipelineService.BlockPipeline.Initialize` | qed_dsol_ibc_node_common/src/block_pipeline.rs:908-1022 | A refused configuration, a mismatch of operator, custodian or mint on chain, and an initial checkpoint that is needed and cannot be derived stop the start before it has any effect; otherwise it resumes from the stored checkpoint or the journal's, with nothing in flight and the window invariant, and stops only by interruption. |
| `TreePlanner.NewBinaryTreePlanner` | qed_dsol_bridge_core/src/utils/tree_planner.rs:61-85 | The loop builds the specified plan for every number of leaves. |
| `TreePlanner.GenLeavesBinaryTreePlanner` | qed_dsol_bridge_core/src/utils/tree_planner.rs:44-54 | The leaf loop builds the specified leaves. |
| `TreePlanner.PlanSize` | qed_dsol_bridge_core/src/utils/tree_planner.rs:65-82 | For n >= 1 leaves the plan has n-1 jobs on ceil(log2 n) levels. |
| `TreePlanner.JobsAreWellAimed` | qed_dsol_bridge_core/src/utils/tree_planner.rs:61-85 | For every number of leaves: every job of the plan aims as `TreePlanner.PlanIsWellAimed` says. |
| `TreePlanner.PlanIsWellAimed` | qed_dsol_bridge_core/src/utils/tree_planner.rs:15-23 | Every left child is the left child position, every right child is the right child position or lies below it along left children, on an earlier level; iterating parents by the level difference leads from either back to the job; job i of level l sits at (l, i). |
| `TreePlanner.AboveIsPlaced` | qed_dsol_bridge_core/src/utils/tree_planner.rs:74-81 | A carried odd node keeps its position, below that of the level above along left children. |
| `TreePlanner.ConsumedAreProduced` | qed_dsol_bridge_core/src/utils/tree_planner.rs:65-82 | As multisets, the children of all jobs and the root are the leaves and the jobs. |
| `TreePlanner.EachConsumedOnce` | qed_dsol_bridge_core/src/utils/tree_planner.rs:61-85 | Every leaf and every job but the root is the child of exactly one job, once; nothing else is anyone's child. |
| `TreePlanner.PlanComputesFold` | qed_dsol_bridge_core/src/utils/tree_planner.rs:61-85 | Running the plan with any associative operator leaves the fold of the leaves, in order, at the root. |
| `TreePlanner.LeavesInOrder` | qed_dsol_bridge_core/src/utils/tree_planner.rs:61-85 | In particular the leaves under the root, read in order, are 0..n-1. |
| `OrderedKeys.LeqMeaning` | kvq/src/memory/simple.rs:55-75 | The order of keys: the first difference decides, and a prefix comes first. |
| `OrderedKeys.WindowMeaning` | kvq/src/memory/simple.rs:66-100 | Among keys of one length the range from the zero-suffixed key to the key is: same leading bytes, trailing bytes at most the key's. |
| `OrderedKeys.ZeroSuffixWindow` | kvq/src/memory/simple.rs:76-88 | With an all-zero suffix the range is the key itself. |
| `OrderedKeys.ZeroBaseKey` | kvq/src/memory/simple.rs:76-80 | The loop zeroes the suffix, and its sum is zero if and only if the suffix was. |
| `KvStore.CacheRefinesStore` | kvq/src/cache/mod.rs:363-430 | After any sequence of sets, deletes, batches and flushes, cache over store means what a plain store would hold after the same operations. |
| `KvStore.OpRefines` | kvq/src/cache/mod.rs:363-430 | Each single operation refines the same operation on the merged map. |
| `KvStore.ReplayedDelta` | kvq/src/cache/mod.rs:88-135 | Replaying a flush's delta on any store gives the merged map of that store and the overlay. |
| `KvStore.LastItemWins` | kvq/src/memory/simple.rs:248-263 | After a batch a key has the value of its last item. |
| `KvStore.OtherKeysStay` | kvq/src/memory/simple.rs:248-263 | A key without an item is as before. |
| `KvStore.CachedLookupCondition` | kvq/src/cache/mod.rs:158-283 | The cached greatest-key lookup answers the merged view if and only if: the suffix is zero, or the store's answer it would return is not overridden and no live cached key lies above it, or the live key it would return is the only one of the window. |
| `KvStore.SimpleWindowIsTrustworthy` | kvq/src/cache/mod.rs:158-283 | In particular it does when the window has no tombstone and at most one live cached key. |
| `KvStore.TombstoneResurfaces` | kvq/src/cache/mod.rs:158-283 | Where it does not: whatever cache and store hold, a deleted key still in the store comes back through every lookup with a non-zero suffix that ends at it. |
| `KvStore.ShortcutAgrees` | kvq/src/memory/simple.rs:82-88 | The point lookup taken for a zero suffix agrees with the scan. |
| `KvStore.GreatestIsLastOfRange` | kvq/src/memory/simple.rs:103-133 | The greatest entry of a window is the last of its range. |
| `KvStore.SimpleStore.GetExact` | kvq/src/memory/simple.rs:50-55 | The entry, or not found. |
| `KvStore.SimpleStore.GetExactIfExists` | kvq/src/memory/simple.rs:161-168 | The entry, if any. |
| `KvStore.SimpleStore.GetLeq` | kvq/src/memory/simple.rs:66-101 | The value of the greatest entry of the window; a suffix longer than the key is refused. |
| `KvStore.SimpleStore.GetLeqKv` | kvq/src/memory/simple.rs:103-133 | The greatest entry of the window. |
| `KvStore.SimpleStore.GetFuzzyRangeLeqKv` | kvq/src/memory/simple.rs:212-234 | Exactly the entries of the window, in strictly ascending order. |
| `KvStore.SimpleStore.Put` | kvq/src/memory/simple.rs:238-246 | The new contents. |
| `KvStore.SimpleStore.PutMany` | kvq/src/memory/simple.rs:248-263 | The new contents after a batch, later items over earlier ones. |
| `KvStore.SimpleStore.PutManySplit` | kvq/src/memory/simple.rs:281-290 | Lists of different lengths are refused without a change; otherwise as the zipped batch. |
| `KvStore.SimpleStore.Erase` | kvq/src/memory/simple.rs:265-270 | The new contents, and whether the key was there. |
| `KvStore.SimpleStore.EraseMany` | kvq/src/memory/simple.rs:272-279 | The new contents, and for each key whether it was there and not erased earlier in the batch. |
| `KvStore.CachedStore.GetExact` | kvq/src/cache/mod.rs:139-147 | A point read is a point read of the merged map. |
| `KvStore.CachedStore.GetManyExact` | kvq/src/cache/mod.rs:149-156 | All of them, or not found exactly if one is missing from the merged map. |
| `KvStore.CachedStore.GetExactIfExists` | kvq/src/cache/mod.rs:311-318 | A point read is a point read of the merged map. |
| `KvStore.CachedStore.GetLeq` | kvq/src/cache/mod.rs:158-218 | The value the cached lookup is specified to answer, on each of its four paths. |
| `KvStore.CachedStore.GetLeqKv` | kvq/src/cache/mod.rs:220-283 | The entry the cached lookup is specified to answer. |
| `KvStore.CachedStore.FirstLive` | kvq/src/cache/mod.rs:183-198 | The ascending scan finds the least live cached key of the window. |
| `KvStore.CachedStore.GetFuzzyRangeLeqKv` | kvq/src/cache/mod.rs:320-359 | Exactly the merged map's entries of the window, without a duplicate key. |
| `KvStore.CachedStore.Put` | kvq/src/cache/mod.rs:363-372 | The merged view after a set. |
| `KvStore.CachedStore.PutMany` | kvq/src/cache/mod.rs:374-390 | The merged view after a batch. |
| `KvStore.CachedStore.PutManySplit` | kvq/src/cache/mod.rs:419-430 | Lists of different lengths are refused without a change; otherwise the merged view after the batch. |
| `KvStore.CachedStore.Erase` | kvq/src/cache/mod.rs:392-408 | A tombstone, and the merged view after a delete; the answer is whether the cache had an entry or a tombstone for the key, also when a proper answer is asked for. |
| `KvStore.CachedStore.EraseMany` | kvq/src/cache/mod.rs:410-417 | The merged view after a batch of deletes, and each answer. |
| `KvStore.DeleteAnswerCondition` | kvq/src/cache/mod.rs:392-408 | That answer is right about the merged view if and only if the cache holds the key alive, or neither cache nor store has it. |
| `KvStore.CachedStore.FlushChanges` | kvq/src/cache/mod.rs:88-113 | An empty overlay, and a delta with each live entry and each tombstone once, whose replay on any store gives what the overlay meant over it. |
| `KvStore.CachedStore.FlushSimple` | kvq/src/cache/mod.rs:114-135 | An empty overlay, and a store that holds the unchanged view. |
| `ProofJobs.FlattenRoundTrip` | qed_dsol_ibc_node_common/src/proof_queue.rs:133-155 | The bytes that the job id hashes are uniquely decodable. |
| `ProofJobs.JobIdBindsJob` | qed_dsol_ibc_node_common/src/proof_queue.rs:103-155 | Two valid jobs with the same id are equal, or their identities are a SHA-256 collision. |
| `ProofJobs.ResultBindsJob` | qed_dsol_ibc_node_common/src/proof_queue.rs:218-260 | A result built from a valid job validates for it, and for another job only through such a collision. |
| `ProofJobs.NewJobIsValid` | qed_dsol_ibc_node_common/src/proof_queue.rs:75-101 | A new job is refused exactly for a malformed hash text or an oversized field; otherwise it is valid, has schema 2, the fingerprint of its request and every field as given. |
| `ProofJobs.ValidJobMeaning` | qed_dsol_ibc_node_common/src/proof_queue.rs:103-131 | A job is valid if and only if it has schema 2, four lowercase hex texts of 32 bytes, fields that fit, the hash of its own request as fingerprint, and the hash of its own identity as id. |
| `ProofJobs.ResultMeaning` | qed_dsol_ibc_node_common/src/proof_queue.rs:157-167 | A result is accepted for a job if and only if the job is valid and all nine fields of the result are the job's. |
| `ProofJobs.IdentityLayout` | qed_dsol_ibc_node_common/src/proof_queue.rs:133-155 | The bytes that are hashed, in order, with every number and length in four bytes, most significant first. |
| `ProofJobs.IdentityKeepsFields` | qed_dsol_ibc_node_common/src/proof_queue.rs:133-167 | Equal identities of jobs with validated hashes mean equal fields. |
| `ProofJobs.LowercaseHexIsCanonical` | qed_dsol_ibc_node_common/src/proof_queue.rs:763-776 | Lowercase hex is the only text of its bytes. |
| `ProofJobs.HexRoundTrip` | qed_dsol_ibc_node_common/src/proof_queue.rs:783-785 | Encoding yields lowercase hex that decodes back. |
| `ProofJobs.HexMeaning` | qed_dsol_ibc_node_common/src/proof_queue.rs:783-785 | Each byte is its two hex digits, the high one first. |
| `ProofJobs.Hex32Meaning` | qed_dsol_ibc_node_common/src/proof_queue.rs:763-776 | A text is accepted as a hash if and only if it is the lowercase hex of 32 bytes. |
| `ProofJobs.UppercaseHexIsAnAlias` | qed_dsol_ibc_node_common/src/proof_queue.rs:770-776 | Without the case check every text with a letter in it would share its identity with another. |
| `ProofJobs.ComputeJobId` | qed_dsol_ibc_node_common/src/proof_queue.rs:133-155 | The buffer built field by field hashes the flattened identity; errors in the order of the source. |
| `ProofJobs.AppendLenPrefixed` | qed_dsol_ibc_node_common/src/proof_queue.rs:756-761 | Length and bytes are appended; more than 32 bits of length are refused. |
| `ProofQueue.AttemptCondition` | qed_dsol_ibc_node_common/src/proof_queue.rs:364-452 | A claim succeeds exactly on a queued job, anything else exactly for the holder of a live lease; the state that each leads to, claims included; and which of the four errors refuses the others. |
| `ProofQueue.HolderFinishes` | qed_dsol_ibc_node_common/src/proof_queue.rs:364-452 | From the queue on: after a claim by (w, l) with expiry e and attempt n, whatever others try and whoever comes late, an attempt by (w, l) at any time before e extends the lease, completes the job as attempt n, or fails it as attempt n. |
| `ProofQueue.TerminalIsAbsorbing` | qed_dsol_ibc_node_common/src/proof_queue.rs:364-452 | Over every trace terminal states stay. |
| `ProofQueue.ClaimIsFenced` | qed_dsol_ibc_node_common/src/proof_queue.rs:382-452 | Over every trace worker, lease and attempt never change after the claim, and a terminal state carries the claimed attempt. |
| `ProofQueue.OnlyHolderAdvances` | qed_dsol_ibc_node_common/src/proof_queue.rs:382-452 | Over every trace without the holder's worker and lease, a claimed job stays as it is. |
| `ProofQueue.ExpiredLeaseIsFrozen` | qed_dsol_ibc_node_common/src/proof_queue.rs:382-452 | Once the clock has reached the expiry, every later operation is refused, the holder's included, and the job stays claimed. |
| `ProofQueue.QueueRedis.EvalSubmit` | qed_dsol_ibc_node_common/src/proof_queue.rs:22-33 | The script on the four keys: an identical job changes nothing, a different one under the id is a collision, a new one is stored, queued and pushed. |
| `ProofQueue.EachIdEnqueuedOnce` | qed_dsol_ibc_node_common/src/proof_queue.rs:22-33 | Over every interleaving of submits and lease operations each stored job has been pushed exactly once, and nothing else has. |
| `ProofQueue.StoredJobsWereSubmitted` | qed_dsol_ibc_node_common/src/proof_queue.rs:487-493 | Every stored job was submitted, valid, under its own id. |
| `ProofQueue.SubmitNeverCollides` | qed_dsol_ibc_node_common/src/proof_queue.rs:670-686 | Absent hash collisions, the script never reports one, whatever happened before. |
| `ProofQueue.JobsRunApart` | qed_dsol_ibc_node_common/src/proof_queue.rs:22-33 | Once an id is known, over every continuation of any run its job stays as stored, and its state is what the lease attempts on that id alone, in order, make of its state then: submits and other jobs change nothing. |
| `ProofQueue.JobLife` | qed_dsol_ibc_node_common/src/proof_queue.rs:22-33 | Every stored job was created by a valid submit of its id, the first one, queued and with no attempts; since then its state is what the lease attempts on its own id make of that. |
| `ProofQueue.OnlyHolderMovesJob` | qed_dsol_ibc_node_common/src/proof_queue.rs:382-452 | In the queue, a claimed job stays exactly as it is unless an attempt is made on it with its worker and lease before its expiry. |
| `ProofQueue.QueueKeepsFences` | qed_dsol_ibc_node_common/src/proof_queue.rs:382-452 | In the queue, over every continuation, a claimed job keeps worker, lease and attempt, and a finished one stays as it is. |
| `NetworkRetry.Run` | qed_dsol_ibc_node_common/src/network_retry.rs:64-121 | The loop stops exactly at the first attempt that succeeds, fails for good, is the last one allowed or ends at the deadline or later, and answers with that attempt's value or error. After the k-th attempt before that it sleeps min(initial * 2^k, max) (the first time the initial delay itself), clamped to what is left until the deadline by the clock, if there is one. |
| `NetworkRetry.DelayIsCappedDoubling` | qed_dsol_ibc_node_common/src/network_retry.rs:117 | For k >= 1 the k-th backoff before clamping is min(initial * 2^k, max), saturation notwithstanding. |
| `NetworkRetry.DoubledIsProduct` | qed_dsol_ibc_node_common/src/network_retry.rs:117 | Doubling k times is multiplying by 2^k. |
| `NetworkRetry.BackoffCapCondition` | qed_dsol_ibc_node_common/src/network_retry.rs:75-117 | No backoff exceeds the maximum delay if and only if the initial delay does not: the first one is not capped. |
| `NetworkRetry.AttemptsWithinCap` | qed_dsol_ibc_node_common/src/network_retry.rs:92-97 | At most max(1, max_attempts) attempts. |
| `NetworkRetry.NoRetryAfterDeadline` | qed_dsol_ibc_node_common/src/network_retry.rs:102-113 | No retry starts after the overall deadline but for what the timer oversleeps. |
| `NetworkRetry.TotalSleepWithinDeadline` | qed_dsol_ibc_node_common/src/network_retry.rs:102-115 | All the sleep asked for in a run is at most the overall deadline. |
| `NetworkRetry.RetriesWithinDeadline` | qed_dsol_ibc_node_common/src/network_retry.rs:102-117 | With a deadline, (retries - 1) times the smallest backoff is less than it. |
| `NetworkRetry.TerminationCondition` | qed_dsol_ibc_node_common/src/network_retry.rs:64-121 | On a clock that every attempt advances, the loop ends on every operation if and only if the policy has a cap or a deadline. |
| `NetworkRetry.AttemptBoundCondition` | qed_dsol_ibc_node_common/src/network_retry.rs:64-121 | The number of attempts has a bound that holds however fast they fail if and only if there is a cap, or a deadline with positive delays, or a deadline no longer than the first delay. |
| `NetworkRetry.DefaultPolicyIsBounded` | qed_dsol_ibc_node_common/src/network_retry.rs:124-134 | The default policy is bounded: at most twenty attempts and ten minutes of sleep. |
| `NetworkRetry.DefaultBackoffs` | qed_dsol_ibc_node_common/src/network_retry.rs:124-134 | Its backoffs are half a second, doubled up to eight seconds, then ten. |

## Left out

- MerklePaths.SequentialNextLeafSiblings: asks for a height of at most 32, because shifting the 32-bit index further has no single meaning in the source; `MerklePaths.IncrementalRefinesFull` has no such bound.
- BlockPipelineService.BlockPipeline.Initialize: models a start as a method of the one object whose fields outlive the process, not as a constructor of a new one, and takes the outcomes of checking the configuration and the on-chain accounts, and of deriving the initial checkpoint, as parameters.
- BlockPipelineService.BlockPipeline.MintAll: counts mint groups where the source counts mints; a group has at least one mint, so the two comparisons agree.
- BlockPipelineService.BlockPipeline.PollOnce: the watchdog is an error answer of the wait for a proof; its expiry while the tip or a block is fetched reads as that being unavailable, and during a commit as an interruption.
- NetworkRetry.Run: runs against a finite script of attempts; the answer that the script has ended stands for a loop still running.
- Levels and indices of the aggregation planner are unbounded where the source has 64 bits; spans, null tests and the Graphviz text are left out. Its file is commented out of its module list in the source.
- The suffix sum of the fuzzy lookups is unbounded, where the source adds bytes into a machine integer.
- Hex, JSON, Borsh and the binary codecs of checkpoints, headers, witnesses and requests: values stand for their encodings; a journal that does not parse is not modelled. The hex of job hashes is modelled.
- Fee calculation, the summaries of the transition builder, custody scripts, the guest verifier, `append_block` and the check that a block extends the previous one: their results are inputs of a step, and a block they refuse is one that cannot be had.
- Validation of live deposit scripts, height artifacts read from files, evidence files and idempotency keys.
- The multi-key lookups `get_many_leq` and `get_many_leq_kv`, prefix and plain ranges, and the adapters of the key/value crate: loops over the single operations.
- The polling loop for results, the local proof backend and the response decoding of the queue; the predicates that tell which network errors are transient.
- The manual recover command, which promotes a checkpoint without processing mints and is an operator action outside the run protocol.
- Processes, sockets, timers, Redis pools, key pairs and configuration.
