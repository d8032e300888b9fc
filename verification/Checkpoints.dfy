/** The pipeline checkpoint and how one finalized Dogecoin block evolves it: the two Merkle
    frontiers, with or without the block history behind them, and the window of commitments
    that still wait for their confirmations. */
module Checkpoints {
  import opened Wrappers
  import opened MachineInts
  import opened MerklePaths

  /** The safety limit on the stored histories. */
  const HISTORY_LIMIT: nat := 1_000_000
  /** Number of block headers the bridge state is initialised from. */
  const HEADER_CACHE_SIZE: nat := 32

  datatype Mint = Mint(recipient: Bytes, amount: nat)

  /** What one block owes: the hashes that go into the bridge header and the payload behind them. */
  datatype Commitment = Commitment(mintsHash: Digest, txoHash: Digest, mints: seq<Mint>, txoIndices: seq<nat>,
      mintedAmount: nat)

  /** The fields of a header that describe two blocks of the state's own record: its tip but for the
      height, and the one that has its confirmations. */
  datatype BlockFields = BlockFields(tip: Digest, finalized: Digest)

  /** The on-chain bridge header. `kept` are the fields that no block changes. */
  datatype Header = Header(tipHeight: nat, blocks: BlockFields, mintsHash: Digest, txoHash: Digest,
      stateHash: Digest, kept: Digest)

  /** The light-client state: the fields that the checkpoint is validated against, and the rest. */
  datatype BridgeState = BridgeState(tip: nat, txoRoot: Digest, claimRoot: Digest, nextClaim: nat, rest: Digest)

  datatype Checkpoint = Checkpoint(
    height: u32, state: BridgeState, header: Header,
    claimFrontier: Frontier, txoFrontier: Frontier,
    claimHistory: seq<Digest>, txoHistory: seq<Digest>,
    pending: map<nat, Commitment>)

  datatype Config = Config(
    sha: Sha256, claimHeight: nat, txoHeight: nat, txoLeafHeight: nat,
    confirmations: nat, emptyMintsHash: Digest, emptyTxoHash: Digest,
    initialRest: nat -> Digest,                          // the rest of a fresh state at a height
    blockFields: BridgeState -> Option<BlockFields>,     // what the state's record of blocks yields, if it has them
    stateHash: BridgeState -> Digest)
  {
    ghost predicate Valid() {
      txoHeight <= 32
    }

    function EmptyCommitment(): Commitment {
      Commitment(emptyMintsHash, emptyTxoHash, [], [], 0)
    }
  }

  /** What the witness of a block evaluates to, and the rest of the state after the block. */
  datatype Evaluation = Evaluation(blockTxoRoot: Digest, depositLeaves: seq<Digest>, commitment: Commitment,
      stateRest: Digest)

  /** The input of one step: the new block's evaluation, and the hashes recomputed from the
      block that is finalized now. */
  datatype Input = Input(evaluation: Evaluation, finalizedMintsHash: Digest, finalizedTxoHash: Digest)

  datatype CheckpointError =
    | StartAboveFinalizedTip | StartTooLow | HeightOverflow
    | FinalizedUnderflow | MintsHashDisagrees | TxoHashDisagrees | BlockFieldsMissing | HistoryLengthMismatch
    | HistoryTooLong | ClaimFrontierMismatch | TxoHistoryLength | TxoFrontierMismatch | StateTipMismatch
    | ClaimRootMismatch | ClaimIndexMismatch | TxoRootMismatch | TxoFrontierHeight
    | Path(cause: PathError)

  // ---------- specification of one step ----------

  function FinalizedTip(cfg: Config, electrsTip: u32): u32 {
    if electrsTip >= cfg.confirmations then electrsTip - cfg.confirmations else 0
  }

  /** A fresh checkpoint at the configured start height, or at the finalized tip. */
  function InitializeCheckpoint(cfg: Config, electrsTip: u32, start: Option<u32>, initialHeader: Header):
      Result<Checkpoint, CheckpointError>
  {
    var finalizedTip := FinalizedTip(cfg, electrsTip);
    var startHeight := if start.Some? then start.value else finalizedTip;
    if startHeight > finalizedTip then Err(StartAboveFinalizedTip)
    else if startHeight + 1 < HEADER_CACHE_SIZE then Err(StartTooLow)
    else Ok(InitialCheckpoint(cfg, startHeight, initialHeader))
  }

  function InitialCheckpoint(cfg: Config, start: u32, initialHeader: Header): Checkpoint {
    var untouched := cfg.sha.Zero(cfg.txoLeafHeight);
    Checkpoint(
      start,
      BridgeState(start, cfg.sha.Zero(cfg.txoLeafHeight + cfg.txoHeight), cfg.sha.Zero(cfg.claimHeight), 0,
                  cfg.initialRest(start)),
      initialHeader,
      Frontier(0, cfg.sha.Zero(0), ZeroPath(cfg.sha, cfg.claimHeight, 0)),
      Frontier(start, untouched, ZeroPath(cfg.sha, cfg.txoHeight, cfg.txoLeafHeight)),
      [],
      if start <= HISTORY_LIMIT then Repeat(untouched, start + 1) else [],
      map[])
  }

  /** The siblings the block witness carries: those of the last claimed deposit, and those of the
      place the new block takes in the TXO tree. */
  datatype WitnessPaths = WitnessPaths(claim: seq<Digest>, txo: seq<Digest>)

  function Witness(cfg: Config, cp: Checkpoint, height: nat): Result<WitnessPaths, CheckpointError> {
    var claim := WitnessClaimPath(cfg, cp);
    if claim.Err? then Err(claim.error)
    else
      var txo := WitnessTxoPath(cfg, cp, height);
      if txo.Err? then Err(txo.error) else Ok(WitnessPaths(claim.value, txo.value))
  }

  function WitnessClaimPath(cfg: Config, cp: Checkpoint): Result<seq<Digest>, CheckpointError> {
    if cp.claimHistory != [] then
      Ok(SparsePath(cfg.sha, cp.claimHistory, |cp.claimHistory| - 1, cfg.claimHeight, 0))
    else if |cp.claimFrontier.siblings| != cfg.claimHeight then Err(Path(WrongSiblingCount))
    else Ok(cp.claimFrontier.siblings)
  }

  function WitnessTxoPath(cfg: Config, cp: Checkpoint, height: nat): Result<seq<Digest>, CheckpointError> {
    if cp.txoHistory == [] then TxoPathFromFrontier(cfg, cp, height)
    else if height >= |cp.txoHistory| + 1 then Err(Path(TargetOutsideLeaves))
    else Ok(SparsePath(cfg.sha, cp.txoHistory + [cfg.sha.Zero(cfg.txoLeafHeight)], height, cfg.txoHeight,
        cfg.txoLeafHeight))
  }

  function TxoPathFromFrontier(cfg: Config, cp: Checkpoint, height: nat): Result<seq<Digest>, CheckpointError> {
    var f := cp.txoFrontier;
    if f.index == U32_MAX then Err(Path(IndexOverflow))
    else if height != f.index + 1 then Err(Path(UnexpectedIndex))
    else if |f.siblings| != cfg.txoHeight then Err(Path(WrongSiblingCount))
    else Ok(NextLeafPath(cfg.sha, f.value, f.siblings, f.index, cfg.txoLeafHeight))
  }

  /** The TXO frontier and history after a block. */
  function AdvanceTxo(cfg: Config, cp: Checkpoint, height: u32, root: Digest):
      Result<(Frontier, seq<Digest>), CheckpointError>
  {
    if cp.txoHistory == [] then
      var path := TxoPathFromFrontier(cfg, cp, height);
      if path.Err? then Err(path.error) else Ok((Frontier(height, root, path.value), []))
    else if |cp.txoHistory| != height then Err(HistoryLengthMismatch)
    else
      var history := cp.txoHistory + [root];
      Ok((Frontier(height, root, SparsePath(cfg.sha, history, height, cfg.txoHeight, cfg.txoLeafHeight)), history))
  }

  /** The claim frontier: it only moves once there has been a deposit. */
  function ClaimFrontier(cfg: Config, before: Frontier, history: seq<Digest>): Frontier {
    if history == [] then before
    else
      var last := |history| - 1;
      Frontier(last % (U32_MAX + 1), history[last], SparsePath(cfg.sha, history, last, cfg.claimHeight, 0))
  }

  /** What is finalized at `height`: the commitment pending from `confirmations` blocks before,
      after comparing it with the block itself. */
  function Finalized(cfg: Config, cp: Checkpoint, height: nat, input: Input): Result<Commitment, CheckpointError> {
    if height < cfg.confirmations then Err(FinalizedUnderflow)
    else if height - cfg.confirmations !in cp.pending then Ok(cfg.EmptyCommitment())
    else
      var c := cp.pending[height - cfg.confirmations];
      if c.mintsHash != input.finalizedMintsHash then Err(MintsHashDisagrees)
      else if c.txoHash != input.finalizedTxoHash then Err(TxoHashDisagrees)
      else Ok(c)
  }

  /** The header after a block: what the new state says of its blocks, the hashes of the commitment
      that is finalized now, and the hash of the state; everything else stays. */
  function NewHeader(cfg: Config, before: Header, state: BridgeState, finalized: Commitment):
      Result<Header, CheckpointError>
  {
    var fields := cfg.blockFields(state);
    if fields == None then Err(BlockFieldsMissing)
    else
      Ok(before.(tipHeight := state.tip, blocks := fields.value, mintsHash := finalized.mintsHash,
                 txoHash := finalized.txoHash, stateHash := cfg.stateHash(state)))
  }

  /** The state after a block. Its roots are those the transition builder reaches from the witness:
      the block root folded along the witness path, and the claim tree with the new deposits
      appended. */
  function NewState(cfg: Config, e: Evaluation, height: nat, txoPath: seq<Digest>, claims: seq<Digest>): BridgeState {
    BridgeState(height, FoldPath(cfg.sha.combine, e.blockTxoRoot, txoPath, height),
                TreeRoot(cfg.sha, claims, cfg.claimHeight, 0), |claims|, e.stateRest)
  }

  /** The next checkpoint and the commitment it finalizes. */
  function Evolve(cfg: Config, cp: Checkpoint, height: u32, input: Input):
      Result<(Checkpoint, Commitment), CheckpointError>
  {
    var e := input.evaluation;
    var paths := Witness(cfg, cp, height);
    if paths.Err? then Err(paths.error)
    else
      var finalized := Finalized(cfg, cp, height, input);
      if finalized.Err? then Err(finalized.error)
      else
        var claims := cp.claimHistory + e.depositLeaves;
        var state := NewState(cfg, e, height, paths.value.txo, claims);
        var header := NewHeader(cfg, cp.header, state, finalized.value);
        if header.Err? then Err(header.error)
        else
          var txo := AdvanceTxo(cfg, cp, height, e.blockTxoRoot);
          if txo.Err? then Err(txo.error)
          else
            Ok((Checkpoint(height, state, header.value, ClaimFrontier(cfg, cp.claimFrontier, claims),
                           txo.value.0, claims, txo.value.1,
                           cp.pending[height := e.commitment] - {height - cfg.confirmations}),
                finalized.value))
  }

  /** Root of a frontier, when the frontier is well formed. */
  function RootOf(cfg: Config, f: Frontier, height: nat): Result<Digest, CheckpointError> {
    if |f.siblings| != height then Err(Path(WrongSiblingCount))
    else if f.index >= Pow2(height) then Err(Path(IndexExceedsTree))
    else Ok(FoldPath(cfg.sha.combine, f.value, f.siblings, f.index))
  }

  function ValidateFrontiers(cfg: Config, cp: Checkpoint): Result<(), CheckpointError> {
    var claimRoot := RootOf(cfg, cp.claimFrontier, cfg.claimHeight);
    if claimRoot.Err? then Err(claimRoot.error)
    else if claimRoot.value != cp.state.claimRoot then Err(ClaimRootMismatch)
    else if (if cp.claimFrontier.index == 0 && cp.claimFrontier.value == cfg.sha.Zero(0) then 0
        else cp.claimFrontier.index + 1)
            != cp.state.nextClaim then Err(ClaimIndexMismatch)
    else
      var txoRoot := RootOf(cfg, cp.txoFrontier, cfg.txoHeight);
      if txoRoot.Err? then Err(txoRoot.error)
      else if txoRoot.value != cp.state.txoRoot then Err(TxoRootMismatch)
      else if cp.txoFrontier.index != cp.height then Err(TxoFrontierHeight)
      else Ok(())
  }

  function ValidateCheckpoint(cfg: Config, cp: Checkpoint): Result<(), CheckpointError> {
    if |cp.claimHistory| > HISTORY_LIMIT || |cp.txoHistory| > HISTORY_LIMIT then Err(HistoryTooLong)
    else if cp.claimHistory != [] && cp.claimFrontier != FrontierOf(cfg.sha, cp.claimHistory, cfg.claimHeight, 0) then
      Err(ClaimFrontierMismatch)
    else if cp.txoHistory != [] && |cp.txoHistory| != cp.height + 1 then Err(TxoHistoryLength)
    else if cp.txoHistory != []
            && cp.txoFrontier != FrontierOf(cfg.sha, cp.txoHistory, cfg.txoHeight, cfg.txoLeafHeight) then
      Err(TxoFrontierMismatch)
    else if cp.state.tip != cp.height then Err(StateTipMismatch)
    else ValidateFrontiers(cfg, cp)
  }

  /** Heights are 32-bit. */
  function NextHeight(cp: Checkpoint): Option<u32> {
    if cp.height == U32_MAX then None else Some(cp.height + 1)
  }

  /** The checks of the old checkpoint, before the next block is looked at. */
  function CheckAgainstState(cfg: Config, cp: Checkpoint): Result<(), CheckpointError> {
    if cp.state.tip != cp.height then Err(StateTipMismatch) else ValidateFrontiers(cfg, cp)
  }

  /** The checkpoint part of `prepare_height`: check the old checkpoint against its state,
      evolve it, validate the result. */
  function Prepare(cfg: Config, cp: Checkpoint, height: u32, input: Input):
      Result<(Checkpoint, Commitment), CheckpointError>
  {
    var checked := CheckAgainstState(cfg, cp);
    if checked.Err? then Err(checked.error)
    else
      var next := Evolve(cfg, cp, height, input);
      if next.Err? then Err(next.error)
      else
        var valid := ValidateCheckpoint(cfg, next.value.0);
        if valid.Err? then Err(valid.error) else next
  }

  // ---------- the straight-line code of the source ----------

  method ValidateCheckpointMethod(cfg: Config, cp: Checkpoint) returns (r: Result<(), CheckpointError>)
    ensures r == ValidateCheckpoint(cfg, cp)
  {
    if |cp.claimHistory| > HISTORY_LIMIT || |cp.txoHistory| > HISTORY_LIMIT {
      return Err(HistoryTooLong);
    }
    if cp.claimHistory != [] {
      var last := |cp.claimHistory| - 1;
      var path := SparseSha256MerkleSiblings(cfg.sha, cp.claimHistory, last, cfg.claimHeight, 0);
      if Frontier(last, cp.claimHistory[last], path.value) != cp.claimFrontier {
        return Err(ClaimFrontierMismatch);
      }
    }
    if cp.txoHistory != [] {
      if |cp.txoHistory| != cp.height + 1 {
        return Err(TxoHistoryLength);
      }
      var path := SparseSha256MerkleSiblings(cfg.sha, cp.txoHistory, cp.height, cfg.txoHeight, cfg.txoLeafHeight);
      if Frontier(cp.height, cp.txoHistory[cp.height], path.value) != cp.txoFrontier {
        return Err(TxoFrontierMismatch);
      }
    }
    if cp.state.tip != cp.height {
      return Err(StateTipMismatch);
    }
    r := ValidateFrontiersAgainstState(cfg, cp);
  }

  method ValidateFrontiersAgainstState(cfg: Config, cp: Checkpoint) returns (r: Result<(), CheckpointError>)
    ensures r == ValidateFrontiers(cfg, cp)
  {
    var claimRoot := FrontierRoot(cfg.sha, cp.claimFrontier, cfg.claimHeight);
    if claimRoot.Err? {
      return Err(Path(claimRoot.error));
    }
    if claimRoot.value != cp.state.claimRoot {
      return Err(ClaimRootMismatch);
    }
    var expected := if cp.claimFrontier.index == 0 && cp.claimFrontier.value == cfg.sha.Zero(0) then 0
        else cp.claimFrontier.index + 1;
    if expected != cp.state.nextClaim {
      return Err(ClaimIndexMismatch);
    }
    var txoRoot := FrontierRoot(cfg.sha, cp.txoFrontier, cfg.txoHeight);
    if txoRoot.Err? {
      return Err(Path(txoRoot.error));
    }
    if txoRoot.value != cp.state.txoRoot {
      return Err(TxoRootMismatch);
    }
    if cp.txoFrontier.index != cp.height {
      return Err(TxoFrontierHeight);
    }
    return Ok(());
  }

  method AdvanceTxoMethod(cfg: Config, cp: Checkpoint, height: u32, root: Digest)
      returns (r: Result<(Frontier, seq<Digest>), CheckpointError>)
    requires cfg.Valid()
    ensures r == AdvanceTxo(cfg, cp, height, root)
  {
    if cp.txoHistory == [] {
      var path := SequentialNextLeafSiblings(cfg.sha, cp.txoFrontier, height, cfg.txoHeight, cfg.txoLeafHeight);
      if path.Err? {
        return Err(Path(path.error));
      }
      return Ok((Frontier(height, root, path.value), []));
    }
    if |cp.txoHistory| != height {
      return Err(HistoryLengthMismatch);
    }
    var history := cp.txoHistory + [root];
    var path := SparseSha256MerkleSiblings(cfg.sha, history, height, cfg.txoHeight, cfg.txoLeafHeight);
    return Ok((Frontier(height, root, path.value), history));
  }

  /** The siblings put into the witness of the next block. */
  method WitnessSiblings(cfg: Config, cp: Checkpoint, height: u32) returns (r: Result<WitnessPaths, CheckpointError>)
    requires cfg.Valid()
    ensures r == Witness(cfg, cp, height)
  {
    var claim;
    if cp.claimHistory == [] {
      if |cp.claimFrontier.siblings| != cfg.claimHeight {
        return Err(Path(WrongSiblingCount));
      }
      claim := Ok(cp.claimFrontier.siblings);
    } else {
      claim := SparseSha256MerkleSiblings(cfg.sha, cp.claimHistory, |cp.claimHistory| - 1, cfg.claimHeight, 0);
    }
    var txo;
    if cp.txoHistory == [] {
      txo := SequentialNextLeafSiblings(cfg.sha, cp.txoFrontier, height, cfg.txoHeight, cfg.txoLeafHeight);
    } else {
      var prospective := cp.txoHistory + [cfg.sha.Zero(cfg.txoLeafHeight)];
      txo := SparseSha256MerkleSiblings(cfg.sha, prospective, height, cfg.txoHeight, cfg.txoLeafHeight);
    }
    r := if txo.Err? then Err(Path(txo.error)) else Ok(WitnessPaths(claim.value, txo.value));
  }

  method AdvanceClaims(cfg: Config, before: Frontier, claims: seq<Digest>) returns (claimFrontier: Frontier)
    ensures claimFrontier == ClaimFrontier(cfg, before, claims)
  {
    claimFrontier := before;
    if claims != [] {
      var last := |claims| - 1;
      var path := SparseSha256MerkleSiblings(cfg.sha, claims, last, cfg.claimHeight, 0);
      claimFrontier := Frontier(last % (U32_MAX + 1), claims[last], path.value);
    }
  }

  /** The new header, field by field. */
  method BuildNewHeader(cfg: Config, before: Header, state: BridgeState, finalized: Commitment)
      returns (r: Result<Header, CheckpointError>)
    ensures r == NewHeader(cfg, before, state, finalized)
    ensures r.Err? <==> cfg.blockFields(state) == None
    ensures r.Err? ==> r.error == BlockFieldsMissing
    ensures r.Ok? ==>
              && r.value.tipHeight == state.tip && Some(r.value.blocks) == cfg.blockFields(state)
              && r.value.mintsHash == finalized.mintsHash && r.value.txoHash == finalized.txoHash
              && r.value.stateHash == cfg.stateHash(state) && r.value.kept == before.kept
  {
    var fields := cfg.blockFields(state);
    if fields == None {
      return Err(BlockFieldsMissing);
    }
    var header := before;
    header := header.(tipHeight := state.tip, blocks := fields.value);
    header := header.(mintsHash := finalized.mintsHash, txoHash := finalized.txoHash);
    header := header.(stateHash := cfg.stateHash(state));
    return Ok(header);
  }

  method EvolveCheckpoint(cfg: Config, cp: Checkpoint, height: u32, input: Input)
      returns (r: Result<(Checkpoint, Commitment), CheckpointError>)
    requires cfg.Valid()
    ensures r == Evolve(cfg, cp, height, input)
  {
    var paths := WitnessSiblings(cfg, cp, height);
    if paths.Err? {
      return Err(paths.error);
    }
    var e := input.evaluation;
    var finalized := Finalized(cfg, cp, height, input);
    if finalized.Err? {
      return Err(finalized.error);
    }
    var claims := cp.claimHistory + e.depositLeaves;
    var state := NewState(cfg, e, height, paths.value.txo, claims);
    var header := BuildNewHeader(cfg, cp.header, state, finalized.value);
    if header.Err? {
      return Err(header.error);
    }
    var claimFrontier := AdvanceClaims(cfg, cp.claimFrontier, claims);
    var txo := AdvanceTxoMethod(cfg, cp, height, e.blockTxoRoot);
    if txo.Err? {
      return Err(txo.error);
    }
    var pending := cp.pending[height := e.commitment];
    pending := pending - {height - cfg.confirmations};
    var next := Checkpoint(height, state, header.value, claimFrontier, txo.value.0, claims, txo.value.1, pending);
    return Ok((next, finalized.value));
  }

  method CheckOldCheckpoint(cfg: Config, cp: Checkpoint) returns (r: Result<(), CheckpointError>)
    ensures r == CheckAgainstState(cfg, cp)
  {
    if cp.state.tip != cp.height {
      return Err(StateTipMismatch);
    }
    r := ValidateFrontiersAgainstState(cfg, cp);
  }

  method PrepareHeight(cfg: Config, cp: Checkpoint, height: u32, input: Input)
      returns (r: Result<(Checkpoint, Commitment), CheckpointError>)
    requires cfg.Valid()
    ensures r == Prepare(cfg, cp, height, input)
  {
    var checked := CheckOldCheckpoint(cfg, cp);
    if checked.Err? {
      return Err(checked.error);
    }
    r := EvolveCheckpoint(cfg, cp, height, input);
    if r.Ok? {
      var valid := ValidateCheckpointMethod(cfg, r.value.0);
      if valid.Err? {
        return Err(valid.error);
      }
    }
  }

  // ---------- what every step keeps ----------

  /** The checkpoint stands for `blocks`, one TXO root per height: its frontier is theirs,
      whether or not it also stores them, and its state has their root. */
  ghost predicate Tracks(cfg: Config, cp: Checkpoint, blocks: seq<Digest>) {
    && |blocks| == cp.height + 1
    && cp.txoFrontier == FrontierOf(cfg.sha, blocks, cfg.txoHeight, cfg.txoLeafHeight)
    && (cp.txoHistory == [] || cp.txoHistory == blocks)
    && cp.state.tip == cp.height
    && (cp.height < Pow2(cfg.txoHeight) ==>
        cp.state.txoRoot == TreeRoot(cfg.sha, blocks, cfg.txoHeight, cfg.txoLeafHeight))
    && cp.state.claimRoot == TreeRoot(cfg.sha, cp.claimHistory, cfg.claimHeight, 0)
    && cp.state.nextClaim == |cp.claimHistory|
    && cp.claimFrontier == ClaimFrontier(cfg, Frontier(0, cfg.sha.Zero(0), ZeroPath(cfg.sha, cfg.claimHeight, 0)),
        cp.claimHistory)
  }

  /** A start succeeds exactly at a height that has its confirmations and 31 blocks below it: the
      configured one, or else the last one with its confirmations. */
  lemma {:induction false} StartCondition(cfg: Config, tip: u32, start: Option<u32>, header: Header)
    ensures var r := InitializeCheckpoint(cfg, tip, start, header);
            var height := if start.Some? then start.value else tip - cfg.confirmations;
            && (r.Ok? <==> 31 <= height && height + cfg.confirmations <= tip)
            && (r.Ok? ==>
                  && r.value.height == height && r.value.header == header && r.value.pending == map[]
                  && r.value.claimHistory == [] && (r.value.txoHistory != [] <==> height <= 1_000_000))
            && (r.Err? ==> r.error == if 0 < height && height + cfg.confirmations > tip then StartAboveFinalizedTip
                                      else StartTooLow)
  {
  }

  /** A restart before the first commit derives the same checkpoint again exactly when the start
      height is configured or the tip has not moved. */
  lemma {:induction false} InitialCheckpointIsStable(cfg: Config, tip: u32, laterTip: u32, start: Option<u32>,
      header: Header)
    requires InitializeCheckpoint(cfg, tip, start, header).Ok? && InitializeCheckpoint(cfg, laterTip, start, header).Ok?
    ensures InitializeCheckpoint(cfg, tip, start, header) == InitializeCheckpoint(cfg, laterTip, start, header)
            <==> start.Some? || tip == laterTip
  {
  }

  lemma {:induction false} InitialTracks(cfg: Config, start: u32, header: Header)
    ensures Tracks(cfg, InitialCheckpoint(cfg, start, header), Repeat(cfg.sha.Zero(cfg.txoLeafHeight), start + 1))
  {
    UntouchedTreePath(cfg.sha, start + 1, start, cfg.txoHeight, cfg.txoLeafHeight);
    UntouchedNode(cfg.sha, start + 1, cfg.txoLeafHeight, cfg.txoHeight, 0);
    RightOfLastIsZero(cfg.sha, [], 0, cfg.claimHeight, 0);
  }

  /** Both ways of advancing agree with the blocks the checkpoint stands for, and the witness
      already carried the very path the new frontier gets. */
  lemma {:induction false} AdvanceTracks(cfg: Config, cp: Checkpoint, blocks: seq<Digest>, root: Digest, height: u32)
    requires Tracks(cfg, cp, blocks) && NextHeight(cp) == Some(height)
    ensures var next := blocks + [root];
            var path := SparsePath(cfg.sha, next, height, cfg.txoHeight, cfg.txoLeafHeight);
            && AdvanceTxo(cfg, cp, height, root)
               == Ok((Frontier(height, root, path), if cp.txoHistory == [] then [] else next))
            && Witness(cfg, cp, height) == Ok(WitnessPaths(cp.claimFrontier.siblings, path))
  {
    IncrementalRefinesFull(cfg.sha, blocks, root, cfg.txoHeight, cfg.txoLeafHeight);
    PathIndependentOfLeaf(cfg.sha, blocks, root, cfg.sha.Zero(cfg.txoLeafHeight), cfg.txoHeight, cfg.txoLeafHeight);
  }

  /** A step, part by part. */
  lemma {:induction false} EvolvedParts(cfg: Config, cp: Checkpoint, height: u32, input: Input)
    requires Evolve(cfg, cp, height, input).Ok?
    ensures var next, root := Evolve(cfg, cp, height, input).value.0, input.evaluation.blockTxoRoot;
            var paths, txo := Witness(cfg, cp, height), AdvanceTxo(cfg, cp, height, root);
            var claims := cp.claimHistory + input.evaluation.depositLeaves;
            && paths.Ok? && txo.Ok? && next.height == height && next.claimHistory == claims
            && (next.txoFrontier, next.txoHistory) == txo.value
            && next.claimFrontier == ClaimFrontier(cfg, cp.claimFrontier, claims)
            && next.state == BridgeState(height, FoldPath(cfg.sha.combine, root, paths.value.txo, height),
                                         TreeRoot(cfg.sha, claims, cfg.claimHeight, 0), |claims|,
                                         input.evaluation.stateRest)
  {
  }

  /** The header of the next checkpoint: that of its height, bound to its state and to the
      commitment that is finalized with it; what no block changes is as before. */
  lemma {:induction false} EvolvedHeader(cfg: Config, cp: Checkpoint, height: u32, input: Input)
    requires Evolve(cfg, cp, height, input).Ok?
    ensures var (next, finalized) := Evolve(cfg, cp, height, input).value;
            && next.header.tipHeight == height == next.state.tip
            && Some(next.header.blocks) == cfg.blockFields(next.state)
            && next.header.stateHash == cfg.stateHash(next.state)
            && next.header.mintsHash == finalized.mintsHash && next.header.txoHash == finalized.txoHash
            && next.header.kept == cp.header.kept
  {
  }

  lemma {:induction false} EvolveTracks(cfg: Config, cp: Checkpoint, blocks: seq<Digest>, height: u32, input: Input)
    requires Tracks(cfg, cp, blocks) && NextHeight(cp) == Some(height)
    requires Evolve(cfg, cp, height, input).Ok?
    ensures Tracks(cfg, Evolve(cfg, cp, height, input).value.0, blocks + [input.evaluation.blockTxoRoot])
  {
    var root := input.evaluation.blockTxoRoot;
    AdvanceTracks(cfg, cp, blocks, root, height);
    EvolvedParts(cfg, cp, height, input);
    if height < Pow2(cfg.txoHeight) {
      PathReachesRoot(cfg.sha, blocks + [root], height, cfg.txoHeight, cfg.txoLeafHeight);
    }
  }

  /** What the trees can hold. A lone deposit that equals the empty leaf would read as none. */
  ghost predicate FitsTrees(cfg: Config, cp: Checkpoint) {
    && |cp.claimHistory| <= Pow2(cfg.claimHeight) && |cp.claimHistory| <= U32_MAX + 1
    && cp.height < Pow2(cfg.txoHeight)
    && cp.claimHistory != [cfg.sha.Zero(0)]
  }

  ghost predicate WithinLimits(cfg: Config, cp: Checkpoint) {
    FitsTrees(cfg, cp) && |cp.claimHistory| <= 1_000_000 && |cp.txoHistory| <= 1_000_000
  }

  /** The claim frontier of a checkpoint folds to its state's root, if the claims fit. */
  lemma {:induction false} ClaimFrontierReachesRoot(cfg: Config, cp: Checkpoint, blocks: seq<Digest>)
    requires Tracks(cfg, cp, blocks)
    requires |cp.claimHistory| <= Pow2(cfg.claimHeight) && |cp.claimHistory| <= U32_MAX + 1
    ensures RootOf(cfg, cp.claimFrontier, cfg.claimHeight) == Ok(cp.state.claimRoot)
  {
    var claims := cp.claimHistory;
    if claims != [] {
      PathReachesRoot(cfg.sha, claims, |claims| - 1, cfg.claimHeight, 0);
    } else {
      UntouchedTreePath(cfg.sha, 1, 0, cfg.claimHeight, 0);
      PathReachesRoot(cfg.sha, Repeat(cfg.sha.Zero(0), 1), 0, cfg.claimHeight, 0);
      UntouchedNode(cfg.sha, 1, 0, cfg.claimHeight, 0);
      RightOfLastIsZero(cfg.sha, [], 0, cfg.claimHeight, 0);
    }
  }

  /** The frontiers of a checkpoint that stands for its blocks agree with its state exactly when
      the trees can hold them. */
  lemma {:induction false} FrontiersCondition(cfg: Config, cp: Checkpoint, blocks: seq<Digest>)
    requires Tracks(cfg, cp, blocks)
    ensures ValidateFrontiers(cfg, cp).Ok? <==> FitsTrees(cfg, cp)
  {
    if |cp.claimHistory| <= Pow2(cfg.claimHeight) && |cp.claimHistory| <= U32_MAX + 1 {
      ClaimFrontierReachesRoot(cfg, cp, blocks);
    }
    if cp.height < Pow2(cfg.txoHeight) {
      PathReachesRoot(cfg.sha, blocks, cp.height, cfg.txoHeight, cfg.txoLeafHeight);
    }
  }

  /** Validation adds to that nothing but the limit on the histories. */
  lemma {:induction false} ValidationIs(cfg: Config, cp: Checkpoint, blocks: seq<Digest>)
    requires Tracks(cfg, cp, blocks)
    ensures ValidateCheckpoint(cfg, cp)
            == if |cp.claimHistory| > HISTORY_LIMIT || |cp.txoHistory| > HISTORY_LIMIT then Err(HistoryTooLong)
               else ValidateFrontiers(cfg, cp)
  {
  }

  lemma {:induction false} ValidationCondition(cfg: Config, cp: Checkpoint, blocks: seq<Digest>)
    requires Tracks(cfg, cp, blocks)
    ensures ValidateCheckpoint(cfg, cp).Ok? <==> WithinLimits(cfg, cp)
  {
    FrontiersCondition(cfg, cp, blocks);
    ValidationIs(cfg, cp, blocks);
  }

  /** The path of a place in the zero-padded tree over `leaves`. */
  ghost predicate IsPath(cfg: Config, path: seq<Digest>, leaves: seq<Digest>, index: nat, height: nat,
      leafHeight: nat)
  {
    && |path| == height
    && forall k {:trigger path[k]} :: 0 <= k < height ==>
         path[k] == Node(cfg.sha, leaves, leafHeight, k, Sibling(ShiftRight(index, k)))
  }

  /** The next place after a TXO frontier. */
  ghost predicate FollowsFrontier(cfg: Config, f: Frontier, height: nat) {
    f.index < U32_MAX && height == f.index + 1 && |f.siblings| == cfg.txoHeight
  }

  /** What goes into the witness, out of any checkpoint whatever: the path of the last claim, stored or
      of the claim history; and the path of the new place, out of the TXO frontier if no history is
      stored and in the history with an empty leaf added if there is one. */
  lemma {:induction false} WitnessMeaning(cfg: Config, cp: Checkpoint, height: nat)
    ensures var r := Witness(cfg, cp, height);
            && (r.Ok? <==>
                  && (cp.claimHistory == [] ==> |cp.claimFrontier.siblings| == cfg.claimHeight)
                  && if cp.txoHistory == [] then FollowsFrontier(cfg, cp.txoFrontier, height)
                     else height <= |cp.txoHistory|)
            && (r.Ok? ==>
                  && (if cp.claimHistory == [] then r.value.claim == cp.claimFrontier.siblings
                      else IsPath(cfg, r.value.claim, cp.claimHistory, |cp.claimHistory| - 1, cfg.claimHeight, 0))
                  && if cp.txoHistory == [] then
                       var f := cp.txoFrontier;
                       r.value.txo == NextLeafPath(cfg.sha, f.value, f.siblings, f.index, cfg.txoLeafHeight)
                     else
                       IsPath(cfg, r.value.txo, cp.txoHistory + [cfg.sha.Zero(cfg.txoLeafHeight)], height,
                              cfg.txoHeight, cfg.txoLeafHeight))
  {
  }

  /** The TXO frontier after a block, out of any checkpoint: at the new height, with the block's root and
      the path of the new place; the history, if stored, has to end right below, and grows by the
      root. */
  lemma {:induction false} AdvanceTxoMeaning(cfg: Config, cp: Checkpoint, height: u32, root: Digest)
    ensures var r := AdvanceTxo(cfg, cp, height, root);
            && (r.Ok? <==>
                  if cp.txoHistory == [] then FollowsFrontier(cfg, cp.txoFrontier, height)
                  else |cp.txoHistory| == height)
            && (r.Ok? ==>
                  && r.value.0.index == height && r.value.0.value == root
                  && if cp.txoHistory == [] then
                       var f := cp.txoFrontier;
                       && r.value.1 == []
                       && r.value.0.siblings == NextLeafPath(cfg.sha, f.value, f.siblings, f.index, cfg.txoLeafHeight)
                     else
                       && r.value.1 == cp.txoHistory + [root]
                       && IsPath(cfg, r.value.0.siblings, r.value.1, height, cfg.txoHeight, cfg.txoLeafHeight))
            && (r.Err? && cp.txoHistory != [] ==> r.error == HistoryLengthMismatch)
  {
  }

  /** What is finalized out of any checkpoint: the commitment pending from `confirmations` heights before,
      if the recomputed hashes are its own; the empty one if none is pending there. */
  lemma {:induction false} FinalizedMeaning(cfg: Config, cp: Checkpoint, height: nat, input: Input)
    ensures var r, k := Finalized(cfg, cp, height, input), height - cfg.confirmations;
            && (r.Ok? <==>
                  && 0 <= k
                  && (k in cp.pending ==>
                        && cp.pending[k].mintsHash == input.finalizedMintsHash
                        && cp.pending[k].txoHash == input.finalizedTxoHash))
            && (r.Ok? ==>
                  r.value == if k in cp.pending then cp.pending[k]
                             else Commitment(cfg.emptyMintsHash, cfg.emptyTxoHash, [], [], 0))
  {
  }

  /** A step succeeds exactly if each of its parts does. */
  lemma {:induction false} EvolveCondition(cfg: Config, cp: Checkpoint, height: u32, input: Input)
    ensures var e, paths, finalized := input.evaluation, Witness(cfg, cp, height), Finalized(cfg, cp, height, input);
            Evolve(cfg, cp, height, input).Ok? <==>
              && paths.Ok? && finalized.Ok? && AdvanceTxo(cfg, cp, height, e.blockTxoRoot).Ok?
              && cfg.blockFields(NewState(cfg, e, height, paths.value.txo, cp.claimHistory + e.depositLeaves)).Some?
    ensures Evolve(cfg, cp, height, input).Ok? ==>
              var (next, finalized) := Evolve(cfg, cp, height, input).value;
              && Ok(finalized) == Finalized(cfg, cp, height, input)
              && next.pending == cp.pending[height := input.evaluation.commitment] - {height - cfg.confirmations}
  {
  }

  /** A height is prepared exactly if the old checkpoint agrees with its own state, the step succeeds and
      what it gives validates; and then that is the result. */
  lemma {:induction false} PrepareMeaning(cfg: Config, cp: Checkpoint, height: u32, input: Input)
    ensures var r, next := Prepare(cfg, cp, height, input), Evolve(cfg, cp, height, input);
            && (r.Ok? <==>
                  CheckAgainstState(cfg, cp).Ok? && next.Ok? && ValidateCheckpoint(cfg, next.value.0).Ok?)
            && (r.Ok? ==> r == next)
            && (r.Err? ==> r.error == if CheckAgainstState(cfg, cp).Err? then CheckAgainstState(cfg, cp).error
                                      else if next.Err? then next.error
                                      else ValidateCheckpoint(cfg, next.value.0).error)
  {
  }

  /** A well-formed frontier of a tree with this root. */
  ghost predicate LeadsTo(cfg: Config, f: Frontier, height: nat, root: Digest) {
    && |f.siblings| == height && f.index < Pow2(height)
    && FoldPath(cfg.sha.combine, f.value, f.siblings, f.index) == root
  }

  /** The frontier is the last leaf of a history with its path in the zero-padded tree. */
  ghost predicate EndsHistory(cfg: Config, f: Frontier, history: seq<Digest>, height: nat, leafHeight: nat) {
    && f.index == |history| - 1 && f.value == history[|history| - 1]
    && IsPath(cfg, f.siblings, history, f.index, height, leafHeight)
  }

  lemma {:induction false} RootMeaning(cfg: Config, f: Frontier, height: nat, root: Digest)
    ensures RootOf(cfg, f, height) == Ok(root) <==> LeadsTo(cfg, f, height, root)
  {
  }

  lemma {:induction false} FrontierMeaning(cfg: Config, f: Frontier, history: seq<Digest>, height: nat, leafHeight: nat)
    requires 0 < |history| <= U32_MAX + 1
    ensures f == FrontierOf(cfg.sha, history, height, leafHeight) <==> EndsHistory(cfg, f, history, height, leafHeight)
  {
    var last := |history| - 1;
    if EndsHistory(cfg, f, history, height, leafHeight) {
      assert f.siblings == SparsePath(cfg.sha, history, last, height, leafHeight);
    }
  }

  /** What validation accepts, of any checkpoint whatever: its state's tip and its TXO frontier are at
      its height, both frontiers lead to the roots of its state, the next claim is the one after the
      claim frontier (or the first, if that is the empty leaf), and the histories it stores are
      within the safety limit and end in its frontiers. */
  lemma {:induction false} ValidationMeaning(cfg: Config, cp: Checkpoint)
    ensures ValidateCheckpoint(cfg, cp).Ok? <==>
              && |cp.claimHistory| <= 1_000_000 && |cp.txoHistory| <= 1_000_000
              && cp.state.tip == cp.height == cp.txoFrontier.index
              && LeadsTo(cfg, cp.claimFrontier, cfg.claimHeight, cp.state.claimRoot)
              && LeadsTo(cfg, cp.txoFrontier, cfg.txoHeight, cp.state.txoRoot)
              && (if cp.claimFrontier.index == 0 && cp.claimFrontier.value == cfg.sha.zeroLeaf then
                    cp.state.nextClaim == 0
                  else cp.state.nextClaim == cp.claimFrontier.index + 1)
              && (cp.claimHistory != [] ==> EndsHistory(cfg, cp.claimFrontier, cp.claimHistory, cfg.claimHeight, 0))
              && (cp.txoHistory != [] ==>
                    EndsHistory(cfg, cp.txoFrontier, cp.txoHistory, cfg.txoHeight, cfg.txoLeafHeight))
  {
    RootMeaning(cfg, cp.claimFrontier, cfg.claimHeight, cp.state.claimRoot);
    RootMeaning(cfg, cp.txoFrontier, cfg.txoHeight, cp.state.txoRoot);
    if 0 < |cp.claimHistory| <= HISTORY_LIMIT {
      FrontierMeaning(cfg, cp.claimFrontier, cp.claimHistory, cfg.claimHeight, 0);
    }
    if 0 < |cp.txoHistory| <= HISTORY_LIMIT {
      FrontierMeaning(cfg, cp.txoFrontier, cp.txoHistory, cfg.txoHeight, cfg.txoLeafHeight);
    }
  }

  /** The check of the old checkpoint asks for the same, but for the histories. */
  lemma {:induction false} CheckMeaning(cfg: Config, cp: Checkpoint)
    ensures CheckAgainstState(cfg, cp).Ok? <==>
              && cp.state.tip == cp.height == cp.txoFrontier.index
              && LeadsTo(cfg, cp.claimFrontier, cfg.claimHeight, cp.state.claimRoot)
              && LeadsTo(cfg, cp.txoFrontier, cfg.txoHeight, cp.state.txoRoot)
              && if cp.claimFrontier.index == 0 && cp.claimFrontier.value == cfg.sha.zeroLeaf then
                   cp.state.nextClaim == 0
                 else cp.state.nextClaim == cp.claimFrontier.index + 1
  {
    RootMeaning(cfg, cp.claimFrontier, cfg.claimHeight, cp.state.claimRoot);
    RootMeaning(cfg, cp.txoFrontier, cfg.txoHeight, cp.state.txoRoot);
  }

  lemma {:induction false} HistoryRoot(cfg: Config, f: Frontier, history: seq<Digest>, height: nat, leafHeight: nat,
      root: Digest)
    requires 0 < |history| <= U32_MAX + 1
    requires LeadsTo(cfg, f, height, root) && EndsHistory(cfg, f, history, height, leafHeight)
    ensures root == TreeRoot(cfg.sha, history, height, leafHeight)
  {
    FrontierMeaning(cfg, f, history, height, leafHeight);
    PathReachesRoot(cfg.sha, history, |history| - 1, height, leafHeight);
  }

  /** So the roots of a validated checkpoint are those of the trees over the histories it stores. */
  lemma {:induction false} ValidatedRoots(cfg: Config, cp: Checkpoint)
    requires ValidateCheckpoint(cfg, cp).Ok?
    ensures cp.claimHistory != [] ==> cp.state.claimRoot == TreeRoot(cfg.sha, cp.claimHistory, cfg.claimHeight, 0)
    ensures cp.txoHistory != [] ==>
              && |cp.txoHistory| == cp.height + 1
              && cp.state.txoRoot == TreeRoot(cfg.sha, cp.txoHistory, cfg.txoHeight, cfg.txoLeafHeight)
  {
    ValidationMeaning(cfg, cp);
    if cp.claimHistory != [] {
      HistoryRoot(cfg, cp.claimFrontier, cp.claimHistory, cfg.claimHeight, 0, cp.state.claimRoot);
    }
    if cp.txoHistory != [] {
      HistoryRoot(cfg, cp.txoFrontier, cp.txoHistory, cfg.txoHeight, cfg.txoLeafHeight, cp.state.txoRoot);
    }
  }

  /** Whatever is prepared is for the height asked for, and validates. */
  lemma {:induction false} PreparedShape(cfg: Config, cp: Checkpoint, height: u32, input: Input)
    requires Prepare(cfg, cp, height, input).Ok?
    ensures var next := Prepare(cfg, cp, height, input).value.0;
            next.height == height == next.header.tipHeight && ValidateCheckpoint(cfg, next).Ok?
  {
  }

  /** Preparing a height adds to the bare evolution nothing but the limits: it succeeds exactly
      when the old checkpoint fits the trees, the evolution succeeds and its result is within the
      limits. The limit on the histories is not asked of the old checkpoint. */
  lemma {:induction false} PrepareCondition(cfg: Config, cp: Checkpoint, blocks: seq<Digest>, height: u32,
      input: Input)
    requires Tracks(cfg, cp, blocks) && NextHeight(cp) == Some(height)
    ensures var evolved := Evolve(cfg, cp, height, input);
            var prepared := Prepare(cfg, cp, height, input);
            && (prepared.Ok? <==> FitsTrees(cfg, cp) && evolved.Ok? && WithinLimits(cfg, evolved.value.0))
            && (prepared.Ok? ==> prepared == evolved)
  {
    FrontiersCondition(cfg, cp, blocks);
    var evolved := Evolve(cfg, cp, height, input);
    if evolved.Ok? {
      EvolveTracks(cfg, cp, blocks, height, input);
      ValidationCondition(cfg, evolved.value.0, blocks + [input.evaluation.blockTxoRoot]);
    }
  }

  // ---------- whole runs ----------

  datatype Progress = Progress(checkpoint: Checkpoint, finalized: seq<Commitment>)

  /** One more block on top of a run. */
  function Step(cfg: Config, before: Progress, input: Input): Result<Progress, CheckpointError> {
    var height := NextHeight(before.checkpoint);
    if height == None then Err(HeightOverflow)
    else
      var step := Evolve(cfg, before.checkpoint, height.value, input);
      if step.Err? then Err(step.error) else Ok(Progress(step.value.0, before.finalized + [step.value.1]))
  }

  /** The checkpoint after a run of blocks, with everything finalized on the way. */
  function Run(cfg: Config, cp: Checkpoint, inputs: seq<Input>): Result<Progress, CheckpointError>
    decreases |inputs|
  {
    if inputs == [] then Ok(Progress(cp, []))
    else
      var before := Run(cfg, cp, inputs[..|inputs| - 1]);
      if before.Err? then Err(before.error) else Step(cfg, before.value, inputs[|inputs| - 1])
  }

  /** The block roots behind a run: untouched up to its start, then those it has seen. */
  function BlocksSeen(cfg: Config, start: nat, inputs: seq<Input>): (blocks: seq<Digest>)
    ensures |blocks| == start + 1 + |inputs|
  {
    if inputs == [] then Repeat(cfg.sha.Zero(cfg.txoLeafHeight), start + 1)
    else BlocksSeen(cfg, start, inputs[..|inputs| - 1]) + [inputs[|inputs| - 1].evaluation.blockTxoRoot]
  }

  function ForgetHistory(cp: Checkpoint): Checkpoint {
    cp.(txoHistory := [])
  }

  function ForgetOutcome(r: Result<Progress, CheckpointError>): Result<Progress, CheckpointError> {
    if r.Err? then r else Ok(r.value.(checkpoint := ForgetHistory(r.value.checkpoint)))
  }

  /** Evolving with and without the block history: the same error, or the same checkpoint but for
      the history. */
  lemma {:induction false} EvolveWithoutHistoryIsSame(
    cfg: Config, cp: Checkpoint, blocks: seq<Digest>, height: u32, input: Input)
    requires Tracks(cfg, cp, blocks) && NextHeight(cp) == Some(height)
    ensures var long, short := Evolve(cfg, cp, height, input), Evolve(cfg, ForgetHistory(cp), height, input);
            if long.Err? then short == long
            else short == Ok((ForgetHistory(long.value.0), long.value.1))
  {
    var root := input.evaluation.blockTxoRoot;
    AdvanceTracks(cfg, cp, blocks, root, height);
    AdvanceTracks(cfg, ForgetHistory(cp), blocks, root, height);
    assert Finalized(cfg, ForgetHistory(cp), height, input) == Finalized(cfg, cp, height, input);
  }

  /** One step with and without the block history: the same outcome. */
  lemma {:induction false} StepWithoutHistoryIsSame(cfg: Config, before: Progress, blocks: seq<Digest>, input: Input)
    requires Tracks(cfg, before.checkpoint, blocks)
    ensures Step(cfg, before.(checkpoint := ForgetHistory(before.checkpoint)), input)
            == ForgetOutcome(Step(cfg, before, input))
  {
    var height := NextHeight(before.checkpoint);
    if height.Some? {
      EvolveWithoutHistoryIsSame(cfg, before.checkpoint, blocks, height.value, input);
    }
  }

  lemma {:induction false} StepTracks(cfg: Config, before: Progress, blocks: seq<Digest>, input: Input)
    requires Tracks(cfg, before.checkpoint, blocks) && Step(cfg, before, input).Ok?
    ensures var after := Step(cfg, before, input).value.checkpoint;
            after.height == before.checkpoint.height + 1 && Tracks(cfg, after, blocks + [input.evaluation.blockTxoRoot])
  {
    EvolveTracks(cfg, before.checkpoint, blocks, NextHeight(before.checkpoint).value, input);
  }

  /** The deposits of a run, block by block. */
  function LeavesSeen(inputs: seq<Input>): seq<Digest> {
    if inputs == [] then [] else LeavesSeen(inputs[..|inputs| - 1]) + inputs[|inputs| - 1].evaluation.depositLeaves
  }

  /** After any run the claim tree holds exactly the deposits it has seen, in block order, and the
      state's root, next claim and rest are theirs and the last block's. */
  lemma {:induction false} RunClaims(cfg: Config, start: u32, header: Header, inputs: seq<Input>)
    requires Run(cfg, InitialCheckpoint(cfg, start, header), inputs).Ok?
    ensures var cp := Run(cfg, InitialCheckpoint(cfg, start, header), inputs).value.checkpoint;
            && cp.claimHistory == LeavesSeen(inputs) && cp.state.nextClaim == |LeavesSeen(inputs)|
            && cp.state.claimRoot == TreeRoot(cfg.sha, LeavesSeen(inputs), cfg.claimHeight, 0)
            && cp.state.rest == if inputs == [] then cfg.initialRest(start)
                                else inputs[|inputs| - 1].evaluation.stateRest
    decreases |inputs|
  {
    RunTracks(cfg, start, header, inputs);
    if inputs != [] {
      var earlier, last := inputs[..|inputs| - 1], inputs[|inputs| - 1];
      RunClaims(cfg, start, header, earlier);
      var before := Run(cfg, InitialCheckpoint(cfg, start, header), earlier).value.checkpoint;
      EvolvedParts(cfg, before, NextHeight(before).value, last);
    }
  }

  /** A run stands for the blocks it has seen, and its frontier index is its height. */
  lemma {:induction false} RunTracks(cfg: Config, start: u32, header: Header, inputs: seq<Input>)
    requires Run(cfg, InitialCheckpoint(cfg, start, header), inputs).Ok?
    ensures var cp := Run(cfg, InitialCheckpoint(cfg, start, header), inputs).value.checkpoint;
            && cp.height == start + |inputs| == cp.txoFrontier.index
            && Tracks(cfg, cp, BlocksSeen(cfg, start, inputs))
    decreases |inputs|
  {
    if inputs == [] {
      InitialTracks(cfg, start, header);
    } else {
      var earlier := inputs[..|inputs| - 1];
      RunTracks(cfg, start, header, earlier);
      var before := Run(cfg, InitialCheckpoint(cfg, start, header), earlier).value;
      StepTracks(cfg, before, BlocksSeen(cfg, start, earlier), inputs[|inputs| - 1]);
    }
  }

  /** Whole-run mode equivalence: the run that keeps no block history gives, block by block, the
      same frontier, state and finalized commitments, or the same error, as the run that does. */
  lemma {:induction false} RunWithoutHistoryIsSame(cfg: Config, start: u32, header: Header, inputs: seq<Input>)
    ensures var cp := InitialCheckpoint(cfg, start, header);
            Run(cfg, ForgetHistory(cp), inputs) == ForgetOutcome(Run(cfg, cp, inputs))
    decreases |inputs|
  {
    if inputs != [] {
      var cp, earlier := InitialCheckpoint(cfg, start, header), inputs[..|inputs| - 1];
      RunWithoutHistoryIsSame(cfg, start, header, earlier);
      var before := Run(cfg, cp, earlier);
      if before.Ok? {
        RunTracks(cfg, start, header, earlier);
        StepWithoutHistoryIsSame(cfg, before.value, BlocksSeen(cfg, start, earlier), inputs[|inputs| - 1]);
      }
    }
  }
}
