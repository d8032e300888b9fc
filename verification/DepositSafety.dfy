/** From the outputs of the Dogecoin blocks to the mints on the other chain: every output that pays a
    custody script is minted once, when its block has its confirmations, and nothing else is. */
module DepositSafety {
  import opened Wrappers
  import opened MachineInts
  import opened MerklePaths
  import opened TransactionTree
  import opened DepositScan
  import opened ClaimEvaluation
  import opened Checkpoints
  import opened CommitProtocol
  import opened CommitSafety
  import opened PipelineRuns
  import opened Finalization
  import opened ServiceRuns

  datatype Hashes = Hashes(mints: Digest, txos: Digest)

  /** A chain of blocks, the custody scripts, and how deposits are evaluated. The pending-mint and
      TXO-list hashes are an arbitrary function of what the scan of a block emits; the frontier
      siblings of the witness have no part in them. */
  datatype Bridge = Bridge(ev: Evaluator, scripts: seq<Bytes>, scriptOf: Bytes -> Bytes, blocks: nat -> Block,
      scanHashes: (Digest, nat, seq<TxWitness>) -> Hashes)
  {
    function BlockPayments(k: nat): seq<Payment> {
      Payments(blocks(k).transactions, scripts, |blocks(k).transactions|)
    }

    function HashesOf(block: Block): Hashes {
      var txs := block.transactions;
      scanHashes(block.merkleRoot, DepositScan.Count(txs, scripts, |txs|),
        Witnesses(ev.combine, TxIds(ev.txid, txs), txs, scripts, |txs|))
    }
  }

  /** Scanning the block and evaluating the result succeeds and gives these lists. */
  ghost predicate EvaluatesTo(b: Bridge, block: Block, lists: ClaimLists) {
    var txs, ids := block.transactions, TxIds(b.ev.txid, block.transactions);
    && txs != [] && TxRoot(b.ev.combine, ids) == block.merkleRoot && FitsU32(txs, b.scripts)
    && var claims := Evaluate(b.ev, block.merkleRoot, Witnesses(b.ev.combine, ids, txs, b.scripts, |txs|),
                              DepositScan.Count(txs, b.scripts, |txs|));
    claims.Ok? && lists == ListsOf(claims.value)
  }

  function SeenHashes(input: Input): Hashes {
    Hashes(input.evaluation.commitment.mintsHash, input.evaluation.commitment.txoHash)
  }

  function AgainHashes(input: Input): Hashes {
    Hashes(input.finalizedMintsHash, input.finalizedTxoHash)
  }

  /** Whatever is offered for a height has the hashes that `hashes` gives, for its own block and for
      the one it finalizes. */
  ghost predicate HashedBy(cfg: Config, sys: System, hashes: nat -> Hashes) {
    forall h: nat, input: Input {:trigger sys.offers(h, input)} ::
      sys.offers(h, input) ==> HashedOffer(hashes, h, h - cfg.confirmations, sys.initial.height, input)
  }

  ghost predicate HashedOffer(hashes: nat -> Hashes, h: nat, finalized: int, start: nat, input: Input) {
    SeenHashes(input) == hashes(h) && (finalized > start ==> AgainHashes(input) == hashes(finalized))
  }

  function BlockHashes(b: Bridge): (hashes: nat -> Hashes)
    ensures forall k: nat {:trigger hashes(k)} :: hashes(k) == b.HashesOf(b.blocks(k))
  {
    (k: nat) => b.HashesOf(b.blocks(k))
  }

  ghost predicate IsEvaluation(b: Bridge, block: Block, input: Input) {
    var c := input.evaluation.commitment;
    EvaluatesTo(b, block, ClaimLists(c.mints, c.txoIndices, input.evaluation.depositLeaves))
  }

  /** What it means for a block to evaluate to lists: its transactions are those of its header, every
      index fits, every payment is defined, and the lists have the claims of its payments. */
  lemma {:induction false} BlockEvaluation(b: Bridge, block: Block, lists: ClaimLists)
    requires |b.ev.recipients| == |b.scripts|
    ensures var txs := block.transactions;
            var ps := Payments(txs, b.scripts, |txs|);
            && ArePayments(b.ev, txs, ps)
            && (EvaluatesTo(b, block, lists) <==>
                  && txs != [] && TxRoot(b.ev.combine, TxIds(b.ev.txid, txs)) == block.merkleRoot
                  && FitsU32(txs, b.scripts)
                  && |lists.mints| == |lists.txoIndices| == |lists.leaves| == |ps|
                  && forall i {:trigger ps[i]} :: 0 <= i < |ps| ==>
                       && PaymentDefined(b.ev, txs, ps[i])
                       && ClaimsPayment(b.ev, txs, ps[i], Claim(lists.mints[i], lists.txoIndices[i], lists.leaves[i])))
  {
    var txs := block.transactions;
    var ps := Payments(txs, b.scripts, |txs|);
    PaymentsExist(b.ev, txs, b.scripts);
    if txs != [] && TxRoot(b.ev.combine, TxIds(b.ev.txid, txs)) == block.merkleRoot {
      EvaluationIsClaimed(b.ev, txs, b.scripts);
      ClaimedMeaning(b.ev, txs, ps);
      if forall i {:trigger ps[i]} :: 0 <= i < |ps| ==> PaymentDefined(b.ev, txs, ps[i]) {
        ListsMeaning(b.ev, txs, ps, Claimed(b.ev, txs, ps).value, lists);
      }
    }
  }

  lemma {:induction false} ListsMeaning(
    ev: Evaluator, txs: seq<Transaction>, ps: seq<Payment>, claims: seq<Claim>, lists: ClaimLists)
    requires ArePayments(ev, txs, ps) && |claims| == |ps|
    requires forall i {:trigger ps[i]} :: 0 <= i < |ps| ==>
               PaymentDefined(ev, txs, ps[i]) && ClaimsPayment(ev, txs, ps[i], claims[i])
    ensures lists == ListsOf(claims) <==>
              && |lists.mints| == |lists.txoIndices| == |lists.leaves| == |ps|
              && forall i {:trigger ps[i]} :: 0 <= i < |ps| ==>
                   ClaimsPayment(ev, txs, ps[i], Claim(lists.mints[i], lists.txoIndices[i], lists.leaves[i]))
  {
    var own := ListsOf(claims);
    if |lists.mints| == |lists.txoIndices| == |lists.leaves| == |ps|
        && forall i {:trigger ps[i]} :: 0 <= i < |ps| ==>
             ClaimsPayment(ev, txs, ps[i], Claim(lists.mints[i], lists.txoIndices[i], lists.leaves[i]))
    {
      forall i | 0 <= i < |ps|
        ensures lists.mints[i] == own.mints[i] && lists.txoIndices[i] == own.txoIndices[i]
        ensures lists.leaves[i] == own.leaves[i]
      {
        assert ClaimsPayment(ev, txs, ps[i], claims[i])
            && Claim(own.mints[i], own.txoIndices[i], own.leaves[i]) == claims[i];
      }
    }
  }

  /** The finalized hashes of `input` are those of the scan of this block. */
  ghost predicate RehashesBlock(b: Bridge, input: Input, block: Block) {
    AgainHashes(input) == b.HashesOf(block)
  }

  /** The scan, then the evaluation of what it emits. */
  method EvaluateBlock(b: Bridge, block: Block) returns (r: Option<ClaimLists>)
    ensures r.Some? ==> EvaluatesTo(b, block, r.value)
    ensures r == None ==> forall lists: ClaimLists :: !EvaluatesTo(b, block, lists)
  {
    var scanned := ScanManagerCustodyDeposits(b.ev.combine, b.ev.txid, block, b.scripts);
    if scanned.Err? {
      return None;
    }
    var evaluated := EvaluateClaimWitness(b.ev, block.merkleRoot, scanned.value.1, scanned.value.0);
    return if evaluated.Ok? then Some(evaluated.value) else None;
  }

  /** What is offered for a height is an evaluation of the block at that height; once there is a
      block of the run to finalize, with the hashes of its scan. Each custody script is that of its
      recipient. */
  ghost predicate PutsIn(cfg: Config, b: Bridge, sys: System) {
    && |b.ev.recipients| == |b.scripts|
    && (forall i {:trigger b.scripts[i]} :: 0 <= i < |b.scripts| ==> b.scripts[i] == b.scriptOf(b.ev.recipients[i]))
    && (forall h: nat, input: Input {:trigger sys.offers(h, input)} ::
          sys.offers(h, input) ==> IsEvaluation(b, b.blocks(h), input))
    && HashedBy(cfg, sys, BlockHashes(b))
  }

  // ---------- finalized blocks are hashed again ----------

  predicate Disagrees(e: CheckpointError) {
    e == MintsHashDisagrees || e == TxoHashDisagrees
  }

  predicate HashesAgree<T>(r: Result<T, CheckpointError>) {
    r.Err? ==> !Disagrees(r.error)
  }

  lemma {:induction false} ValidationAgrees(cfg: Config, cp: Checkpoint)
    ensures HashesAgree(CheckAgainstState(cfg, cp)) && HashesAgree(ValidateCheckpoint(cfg, cp))
  {
  }

  lemma {:induction false} EvolutionAgrees(cfg: Config, cp: Checkpoint, height: u32, input: Input)
    requires HashesAgree(Finalized(cfg, cp, height, input))
    ensures HashesAgree(Evolve(cfg, cp, height, input))
  {
  }

  /** Preparing a height only finds that a hash disagrees where it looks up what is finalized. */
  lemma {:induction false} PreparationAgrees(cfg: Config, cp: Checkpoint, height: u32, input: Input)
    requires HashesAgree(Finalized(cfg, cp, height, input))
    ensures HashesAgree(Prepare(cfg, cp, height, input))
  {
    ValidationAgrees(cfg, cp);
    EvolutionAgrees(cfg, cp, height, input);
    var next := Evolve(cfg, cp, height, input);
    if next.Ok? {
      ValidationAgrees(cfg, next.value.0);
    }
  }

  // ---------- any function from heights to hashes ----------

  lemma {:induction false} MadeFinalizes(
    cfg: Config, sys: System, inputs: seq<Input>, cp: Checkpoint, finalized: seq<Commitment>, height: nat,
    input: Input)
    requires Serves(cfg, sys) && cfg.confirmations >= 1 && Makes(cfg, sys, inputs, cp, finalized)
    requires height == sys.initial.height + |inputs| + 1
    ensures FinalizesUnchanged(cfg, height, inputs, input, Finalized(cfg, cp, height, input))
  {
    MadeWindow(cfg, sys, inputs, cp, finalized);
    WindowFinalizes(cfg, sys.initial.height, inputs, cp, finalized, height, input);
  }

  lemma {:induction false} HashesDecide(
    cfg: Config, height: nat, inputs: seq<Input>, input: Input, r: Result<Commitment, CheckpointError>)
    requires cfg.confirmations >= 1 && FinalizesUnchanged(cfg, height, inputs, input, r)
    ensures if |inputs| < cfg.confirmations then HashesAgree(r)
            else
              && (r.Ok? <==> AgainHashes(input) == SeenHashes(inputs[|inputs| - cfg.confirmations]))
              && (r.Err? <==> !HashesAgree(r))
  {
  }

  lemma {:induction false} MadeHeight(
    cfg: Config, sys: System, inputs: seq<Input>, cp: Checkpoint, finalized: seq<Commitment>)
    requires Serves(cfg, sys) && Makes(cfg, sys, inputs, cp, finalized)
    ensures cp.height == sys.initial.height + |inputs|
  {
    PrepareRunIsRun(cfg, sys.initial, inputs);
    RunTracks(cfg, sys.initial.height, sys.initial.header, inputs);
  }

  lemma {:induction false} EarlierHashes(
    cfg: Config, sys: System, hashes: nat -> Hashes, inputs: seq<Input>, height: nat, input: Input, k: nat,
    r: Result<Commitment, CheckpointError>)
    requires cfg.confirmations >= 1 && HashedBy(cfg, sys, hashes) && Offered(sys, inputs)
    requires height == sys.initial.height + |inputs| + 1 && k == height - cfg.confirmations > sys.initial.height
    requires FinalizesUnchanged(cfg, height, inputs, input, r)
    ensures (r.Ok? <==> AgainHashes(input) == hashes(k)) && (r.Err? <==> !HashesAgree(r))
  {
    HashesDecide(cfg, height, inputs, input, r);
    assert sys.offers(k, inputs[k - sys.initial.height - 1]);
  }

  lemma {:induction false} OfferRehashes(
    cfg: Config, sys: System, hashes: nat -> Hashes, height: nat, input: Input, k: nat)
    requires HashedBy(cfg, sys, hashes) && sys.offers(height, input)
    requires k == height - cfg.confirmations > sys.initial.height
    ensures AgainHashes(input) == hashes(k)
  {
    assert HashedOffer(hashes, height, height - cfg.confirmations, sys.initial.height, input);
  }

  lemma {:induction false} OfferAgrees(
    cfg: Config, sys: System, hashes: nat -> Hashes, inputs: seq<Input>, height: nat, input: Input,
    r: Result<Commitment, CheckpointError>)
    requires cfg.confirmations >= 1 && HashedBy(cfg, sys, hashes) && Offered(sys, inputs)
    requires height == sys.initial.height + |inputs| + 1 && sys.offers(height, input)
    requires FinalizesUnchanged(cfg, height, inputs, input, r)
    ensures HashesAgree(r)
  {
    if cfg.confirmations <= |inputs| {
      var k := height - cfg.confirmations;
      OfferRehashes(cfg, sys, hashes, height, input, k);
      EarlierHashes(cfg, sys, hashes, inputs, height, input, k, r);
    } else {
      HashesDecide(cfg, height, inputs, input, r);
    }
  }

  // ---------- the hashes of blocks ----------

  /** The height after a run accepts the block `k` that it finalizes exactly if what that block
      hashes to now is what the block that was seen there hashed to then. */
  lemma {:induction false} FinalizedBlockCondition(
    cfg: Config, sys: System, b: Bridge, inputs: seq<Input>, cp: Checkpoint, finalized: seq<Commitment>,
    height: nat, input: Input, k: nat, now: Block)
    requires Serves(cfg, sys) && cfg.confirmations >= 1 && PutsIn(cfg, b, sys)
    requires height == sys.initial.height + |inputs| + 1 && k == height - cfg.confirmations > sys.initial.height
    requires RehashesBlock(b, input, now)
    ensures var r := Finalized(cfg, cp, height, input);
            Makes(cfg, sys, inputs, cp, finalized) ==>
              (r.Ok? <==> b.HashesOf(now) == b.HashesOf(b.blocks(k))) && (r.Err? <==> !HashesAgree(r))
  {
    if Makes(cfg, sys, inputs, cp, finalized) {
      MadeFinalizes(cfg, sys, inputs, cp, finalized, height, input);
      EarlierHashes(cfg, sys, BlockHashes(b), inputs, height, input, k, Finalized(cfg, cp, height, input));
    }
  }

  /** Preparing what is offered for the next height never finds that a hash disagrees. */
  ghost predicate NextAgrees(cfg: Config, sys: System, cp: Checkpoint, height: nat) {
    forall input: Input {:trigger PrepareNext(cfg, cp, input)} ::
      sys.offers(height, input) ==> HashesAgree(PrepareNext(cfg, cp, input))
  }

  lemma {:induction false} NextPreparationAgrees(cfg: Config, cp: Checkpoint, height: nat, input: Input)
    requires height == cp.height + 1 && HashesAgree(Finalized(cfg, cp, height, input))
    ensures HashesAgree(PrepareNext(cfg, cp, input))
  {
    NextPreparation(cfg, cp, height, input);
    if height <= U32_MAX {
      PreparationAgrees(cfg, cp, height, input);
    }
  }

  lemma {:induction false} OfferIsPrepared(
    cfg: Config, sys: System, hashes: nat -> Hashes, inputs: seq<Input>, cp: Checkpoint, finalized: seq<Commitment>,
    height: nat, input: Input)
    requires Serves(cfg, sys) && cfg.confirmations >= 1 && HashedBy(cfg, sys, hashes)
    requires height == sys.initial.height + |inputs| + 1 && sys.offers(height, input)
    ensures Makes(cfg, sys, inputs, cp, finalized) ==> HashesAgree(PrepareNext(cfg, cp, input))
  {
    if Makes(cfg, sys, inputs, cp, finalized) {
      MadeHeight(cfg, sys, inputs, cp, finalized);
      MadeFinalizes(cfg, sys, inputs, cp, finalized, height, input);
      OfferAgrees(cfg, sys, hashes, inputs, height, input, Finalized(cfg, cp, height, input));
      NextPreparationAgrees(cfg, cp, height, input);
    }
  }

  lemma {:induction false} OffersArePrepared(
    cfg: Config, sys: System, hashes: nat -> Hashes, inputs: seq<Input>, cp: Checkpoint, finalized: seq<Commitment>,
    height: nat)
    requires Serves(cfg, sys) && cfg.confirmations >= 1 && HashedBy(cfg, sys, hashes)
    requires height == sys.initial.height + |inputs| + 1
    ensures Makes(cfg, sys, inputs, cp, finalized) ==> NextAgrees(cfg, sys, cp, height)
  {
    forall input: Input {:trigger PrepareNext(cfg, cp, input)} | sys.offers(height, input)
      ensures Makes(cfg, sys, inputs, cp, finalized) ==> HashesAgree(PrepareNext(cfg, cp, input))
    {
      OfferIsPrepared(cfg, sys, hashes, inputs, cp, finalized, height, input);
    }
  }

  /** While the chain does not change, preparing a block never finds that a hash disagrees. */
  lemma {:induction false} UnchangedChainAgrees(
    cfg: Config, sys: System, b: Bridge, inputs: seq<Input>, cp: Checkpoint, finalized: seq<Commitment>, height: nat)
    requires Serves(cfg, sys) && cfg.confirmations >= 1 && PutsIn(cfg, b, sys)
    requires height == sys.initial.height + |inputs| + 1
    ensures Makes(cfg, sys, inputs, cp, finalized) ==> NextAgrees(cfg, sys, cp, height)
  {
    OffersArePrepared(cfg, sys, BlockHashes(b), inputs, cp, finalized, height);
  }

  // ---------- any function from heights to mints ----------

  /** What a block owes: its mints, and the TXO indices of the outputs they are for. */
  datatype Owed = Owed(mints: seq<Mint>, txoIndices: seq<nat>)

  function OwedBy(c: Commitment): Owed {
    Owed(c.mints, c.txoIndices)
  }

  /** Whatever is offered for a height commits to what `paid` gives for it. */
  ghost predicate Commits(sys: System, paid: nat -> Owed) {
    forall h: nat, input: Input {:trigger sys.offers(h, input)} ::
      sys.offers(h, input) ==> OwedBy(input.evaluation.commitment) == paid(h)
  }

  ghost predicate Seen(sys: System, k: nat) {
    exists input :: sys.offers(k, input)
  }

  lemma {:induction false} DueIsPaid(
    cfg: Config, sys: System, paid: nat -> Owed, inputs: seq<Input>, k: nat, due: Commitment)
    requires Commits(sys, paid) && Offered(sys, inputs)
    requires sys.initial.height < k && k + cfg.confirmations <= sys.initial.height + |inputs|
    requires due == Due(cfg, sys.initial.height, inputs, k + cfg.confirmations)
    ensures OwedBy(due) == paid(k) && Seen(sys, k)
  {
    var start, i := sys.initial.height, k - sys.initial.height - 1;
    DueIsEarlierBlock(cfg, start, inputs, k, i);
    assert sys.offers(start + 1 + i, inputs[i]);
  }

  lemma {:induction false} GroupOfMint(sys: System, c: Commitment, i: nat)
    requires i < |c.mints|
    ensures i / sys.groupSize < sys.Groups(c)
  {
    GroupsMeaning(sys, c, i / sys.groupSize);
  }

  /** Mint `i` of block `k` is in the commitment that the update `confirmations` blocks later
      authorised, and the group it is in has been minted. */
  ghost predicate MintMinted(cfg: Config, sys: System, paid: nat -> Owed, w: World, k: nat, i: nat) {
    var h := k + cfg.confirmations;
    Seen(sys, k) && h in w.authorised && OwedBy(w.authorised[h]) == paid(k) && (h, i / sys.groupSize) in w.minted
  }

  /** A group that has been minted is one of the block that then had its confirmations. */
  ghost predicate GroupIsPaid(cfg: Config, sys: System, paid: nat -> Owed, w: World, h: nat, g: nat) {
    && h in w.authorised && h > sys.initial.height + cfg.confirmations
    && g * sys.groupSize < |w.authorised[h].mints|
    && Seen(sys, h - cfg.confirmations) && OwedBy(w.authorised[h]) == paid(h - cfg.confirmations)
  }

  lemma {:induction false} MintIsMinted(
    cfg: Config, sys: System, paid: nat -> Owed, w: World, inputs: seq<Input>, k: nat, i: nat)
    requires Commits(sys, paid) && Offered(sys, inputs) && AuthorisesDue(cfg, sys, w, inputs)
            && MintsDue(cfg, sys, w, inputs)
    requires sys.initial.height < k && k + cfg.confirmations <= sys.Committed(w).height && i < |paid(k).mints|
    ensures MintMinted(cfg, sys, paid, w, k, i)
  {
    var h := k + cfg.confirmations;
    assert h in w.authorised;
    DueIsPaid(cfg, sys, paid, inputs, k, w.authorised[h]);
    GroupOfMint(sys, w.authorised[h], i);
    assert (h, i / sys.groupSize) in w.minted;
  }

  lemma {:induction false} MintedIsPaid(
    cfg: Config, sys: System, paid: nat -> Owed, w: World, inputs: seq<Input>, h: nat, g: nat)
    requires Commits(sys, paid) && Offered(sys, inputs) && AuthorisesDue(cfg, sys, w, inputs)
            && MintsDue(cfg, sys, w, inputs)
    requires (h, g) in w.minted
    ensures GroupIsPaid(cfg, sys, paid, w, h, g)
  {
    assert h in w.authorised;
    GroupsMeaning(sys, w.authorised[h], g);
    if h - cfg.confirmations > sys.initial.height {
      DueIsPaid(cfg, sys, paid, inputs, h - cfg.confirmations, w.authorised[h]);
    }
  }

  /** All mints of all confirmed blocks have taken place, each group once and block by block, and
      nothing else; up to the tip a block has been seen at every height. */
  ghost predicate AllMinted(cfg: Config, sys: System, paid: nat -> Owed, w: World) {
    && (forall k: nat {:trigger Seen(sys, k)} :: sys.initial.height < k <= w.header.tipHeight ==> Seen(sys, k))
    && (forall k: nat, i: nat {:trigger MintMinted(cfg, sys, paid, w, k, i)} ::
          sys.initial.height < k && k + cfg.confirmations <= sys.Committed(w).height && i < |paid(k).mints| ==>
            MintMinted(cfg, sys, paid, w, k, i))
    && (forall h: nat, g: nat {:trigger (h, g) in w.minted} ::
          (h, g) in w.minted ==> GroupIsPaid(cfg, sys, paid, w, h, g))
    && (forall i, j :: 0 <= i < j < |w.minted| ==> w.minted[i] != w.minted[j] && w.minted[i].0 <= w.minted[j].0)
  }

  lemma {:induction false} SeenUpToTip(sys: System, inputs: seq<Input>, k: nat)
    requires Offered(sys, inputs) && sys.initial.height < k <= sys.initial.height + |inputs|
    ensures Seen(sys, k)
  {
    var i := k - sys.initial.height - 1;
    assert sys.offers(sys.initial.height + 1 + i, inputs[i]);
  }

  lemma {:induction false} BlocksMintAll(cfg: Config, sys: System, paid: nat -> Owed, w: World, inputs: seq<Input>)
    requires Commits(sys, paid) && Offered(sys, inputs) && AuthorisesDue(cfg, sys, w, inputs)
            && MintsDue(cfg, sys, w, inputs)
    requires w.header.tipHeight == sys.initial.height + |inputs|
    ensures AllMinted(cfg, sys, paid, w)
  {
    forall k: nat {:trigger Seen(sys, k)} | sys.initial.height < k <= w.header.tipHeight
      ensures Seen(sys, k)
    {
      SeenUpToTip(sys, inputs, k);
    }
    forall k: nat, i: nat {:trigger MintMinted(cfg, sys, paid, w, k, i)} |
      sys.initial.height < k && k + cfg.confirmations <= sys.Committed(w).height && i < |paid(k).mints|
      ensures MintMinted(cfg, sys, paid, w, k, i)
    {
      MintIsMinted(cfg, sys, paid, w, inputs, k, i);
    }
    forall h: nat, g: nat {:trigger (h, g) in w.minted} | (h, g) in w.minted
      ensures GroupIsPaid(cfg, sys, paid, w, h, g)
    {
      MintedIsPaid(cfg, sys, paid, w, inputs, h, g);
    }
  }

  lemma {:induction false} PaidIsMintedOnce(cfg: Config, sys: System, paid: nat -> Owed, events: seq<Event>)
    requires Serves(cfg, sys) && cfg.confirmations >= 1 && Commits(sys, paid)
    requires sys.Valid() && Exec(sys, sys.Init(), events).Some?
    ensures AllMinted(cfg, sys, paid, Exec(sys, sys.Init(), events).value.world)
  {
    var inputs := MintsWhatBlocksOwe(cfg, sys, events);
    BlocksMintAll(cfg, sys, paid, Exec(sys, sys.Init(), events).value.world, inputs);
  }

  // ---------- the deposits of blocks ----------

  /** What is owed for a payment of block `k`: what is left of its output after the fee, minted for
      the recipient of the script it pays; and the index of that output. */
  ghost predicate Settles(b: Bridge, k: nat, p: Payment, mint: Mint, txoIndex: nat) {
    var txs := b.blocks(k).transactions;
    && p.tx < |txs| && p.output < |txs[p.tx].outputs| && p.key < |b.ev.recipients|
    && mint.recipient == b.ev.recipients[p.key]
    && Some(mint.amount) == b.ev.net(txs[p.tx].outputs[p.output].value)
    && Some(txoIndex) == b.ev.txoIndex(p.tx, p.output)
  }

  /** What is owed is owed for the payments of block `k`, one by one and in block order. */
  ghost predicate MintsPayments(b: Bridge, k: nat, owed: Owed) {
    var ps := b.BlockPayments(k);
    && |owed.mints| == |owed.txoIndices| == |ps|
    && forall i {:trigger owed.mints[i]} {:trigger ps[i]} :: 0 <= i < |ps| ==>
         Settles(b, k, ps[i], owed.mints[i], owed.txoIndices[i])
  }

  /** What an evaluation of block `k` owes. */
  function PaidOut(b: Bridge, k: nat): Owed {
    var claims := Claimed(b.ev, b.blocks(k).transactions, b.BlockPayments(k));
    if claims.Ok? then Owed(ListsOf(claims.value).mints, ListsOf(claims.value).txoIndices) else Owed([], [])
  }

  function Paid(b: Bridge): (paid: nat -> Owed)
    ensures forall k: nat {:trigger paid(k)} :: paid(k) == PaidOut(b, k)
  {
    (k: nat) => PaidOut(b, k)
  }

  lemma {:induction false} ClaimedIsPaidOut(b: Bridge, k: nat)
    requires |b.ev.recipients| == |b.scripts|
    ensures Claimed(b.ev, b.blocks(k).transactions, b.BlockPayments(k)).Ok? ==> MintsPayments(b, k, PaidOut(b, k))
  {
    var txs, ps := b.blocks(k).transactions, b.BlockPayments(k);
    PaymentsExist(b.ev, txs, b.scripts);
    ClaimedMeaning(b.ev, txs, ps);
    if Claimed(b.ev, txs, ps).Ok? {
      var claims, owed := Claimed(b.ev, txs, ps).value, PaidOut(b, k);
      forall i {:trigger owed.mints[i]} {:trigger ps[i]} | 0 <= i < |ps|
        ensures Settles(b, k, ps[i], owed.mints[i], owed.txoIndices[i])
      {
        assert ClaimsPayment(b.ev, txs, ps[i], claims[i]);
        assert Claim(owed.mints[i], owed.txoIndices[i], ListsOf(claims).leaves[i]) == claims[i];
      }
    }
  }

  lemma {:induction false} EvaluationMintsPayments(b: Bridge, k: nat, input: Input)
    requires |b.ev.recipients| == |b.scripts|
    ensures IsEvaluation(b, b.blocks(k), input) ==>
              OwedBy(input.evaluation.commitment) == PaidOut(b, k) && MintsPayments(b, k, PaidOut(b, k))
  {
    if IsEvaluation(b, b.blocks(k), input) {
      EvaluationIsClaimed(b.ev, b.blocks(k).transactions, b.scripts);
      ClaimedIsPaidOut(b, k);
    }
  }

  /** Over every run of the service, crashes included, for every block that has its confirmations at
      the stored checkpoint: the update `confirmations` blocks later has authorised one mint for
      each output that pays a custody script, in block order, and all of them have been minted, each
      group once; and every group that has been minted is one of such a block. */
  lemma {:induction false} DepositsAreMintedOnce(cfg: Config, sys: System, b: Bridge, events: seq<Event>)
    requires Serves(cfg, sys) && cfg.confirmations >= 1 && PutsIn(cfg, b, sys)
    requires sys.Valid() && Exec(sys, sys.Init(), events).Some?
    ensures PaysDeposits(b, sys)
    ensures AllMinted(cfg, sys, Paid(b), Exec(sys, sys.Init(), events).value.world)
  {
    DepositsCommit(cfg, sys, b, Paid(b));
    PaidIsMintedOnce(cfg, sys, Paid(b), events);
  }

  /** The mints of every block that has been seen are those of its payments. */
  ghost predicate PaysDeposits(b: Bridge, sys: System) {
    var paid := Paid(b);
    forall k: nat {:trigger paid(k)} :: Seen(sys, k) ==> MintsPayments(b, k, paid(k))
  }

  lemma {:induction false} DepositsCommit(cfg: Config, sys: System, b: Bridge, paid: nat -> Owed)
    requires PutsIn(cfg, b, sys) && forall k: nat {:trigger paid(k)} :: paid(k) == PaidOut(b, k)
    ensures Commits(sys, paid)
    ensures forall k: nat {:trigger paid(k)} :: Seen(sys, k) ==> MintsPayments(b, k, paid(k))
  {
    forall h: nat, input: Input {:trigger sys.offers(h, input)} | sys.offers(h, input)
      ensures OwedBy(input.evaluation.commitment) == paid(h)
    {
      EvaluationMintsPayments(b, h, input);
    }
    forall k: nat {:trigger paid(k)} | Seen(sys, k)
      ensures MintsPayments(b, k, paid(k))
    {
      var input :| sys.offers(k, input);
      EvaluationMintsPayments(b, k, input);
    }
  }

  /** An output that pays a custody script is exactly one of its block's payments. */
  lemma {:induction false} OutputIsOnePayment(b: Bridge, k: nat, p: Payment) returns (i: nat)
    requires Pays(b.blocks(k).transactions, b.scripts, p)
    ensures i < |b.BlockPayments(k)| && b.BlockPayments(k)[i] == p
    ensures forall j {:trigger b.BlockPayments(k)[j]} :: 0 <= j < |b.BlockPayments(k)| ==>
              (j == i <==> b.BlockPayments(k)[j].tx == p.tx && b.BlockPayments(k)[j].output == p.output)
  {
    var txs, ps := b.blocks(k).transactions, b.BlockPayments(k);
    PaymentsAreMatchingOutputs(txs, b.scripts, |txs|);
    assert p in ps;
    i :| 0 <= i < |ps| && ps[i] == p;
    forall j | 0 <= j < |ps|
      ensures j == i <==> ps[j].tx == p.tx && ps[j].output == p.output
    {
      assert j < i ==> Before(ps[j], ps[i]);
      assert i < j ==> Before(ps[i], ps[j]);
    }
  }

  /** Over every run: an output of a confirmed block that pays a custody script is exactly one of its
      block's payments; in the place of that payment, the commitment of the update `confirmations`
      blocks later mints what is left of the output after the fee for the recipient of that script,
      and lists the output; and the group the mint falls into has been minted. */
  lemma {:induction false} OutputIsMinted(cfg: Config, sys: System, b: Bridge, events: seq<Event>, k: nat, p: Payment)
    returns (i: nat)
    requires Serves(cfg, sys) && cfg.confirmations >= 1 && PutsIn(cfg, b, sys)
    requires sys.Valid() && Exec(sys, sys.Init(), events).Some?
    requires sys.initial.height < k
    requires k + cfg.confirmations <= sys.Committed(Exec(sys, sys.Init(), events).value.world).height
    requires Pays(b.blocks(k).transactions, b.scripts, p)
    ensures i < |b.BlockPayments(k)| && b.BlockPayments(k)[i] == p
    ensures forall j {:trigger b.BlockPayments(k)[j]} :: 0 <= j < |b.BlockPayments(k)| ==>
              (j == i <==> b.BlockPayments(k)[j].tx == p.tx && b.BlockPayments(k)[j].output == p.output)
    ensures var w, h := Exec(sys, sys.Init(), events).value.world, k + cfg.confirmations;
            && h in w.authorised && i < |w.authorised[h].mints| == |w.authorised[h].txoIndices|
            && w.authorised[h].mints[i].recipient == b.ev.recipients[p.key]
            && b.scriptOf(w.authorised[h].mints[i].recipient)
               == b.blocks(k).transactions[p.tx].outputs[p.output].script
            && Some(w.authorised[h].mints[i].amount)
               == b.ev.net(b.blocks(k).transactions[p.tx].outputs[p.output].value)
            && Some(w.authorised[h].txoIndices[i]) == b.ev.txoIndex(p.tx, p.output)
            && (h, i / sys.groupSize) in w.minted
  {
    i := OutputIsOnePayment(b, k, p);
    DepositsAreMintedOnce(cfg, sys, b, events);
    ReachableInv(sys, events);
    ConfirmedPayment(cfg, sys, b, Exec(sys, sys.Init(), events).value.world, k, i);
  }

  lemma {:induction false} ConfirmedPayment(cfg: Config, sys: System, b: Bridge, w: World, k: nat, i: nat)
    requires PaysDeposits(b, sys) && AllMinted(cfg, sys, Paid(b), w)
    requires sys.initial.height < k && k + cfg.confirmations <= sys.Committed(w).height <= w.header.tipHeight
    requires i < |b.BlockPayments(k)|
    ensures var h, p := k + cfg.confirmations, b.BlockPayments(k)[i];
            && h in w.authorised && i < |w.authorised[h].mints| == |w.authorised[h].txoIndices|
            && Settles(b, k, p, w.authorised[h].mints[i], w.authorised[h].txoIndices[i])
            && (h, i / sys.groupSize) in w.minted
  {
    var owed := Paid(b)(k);
    SeenBelowTip(cfg, sys, Paid(b), w, k);
    PaymentAt(b, k, owed, i);
    ConfirmedMint(cfg, sys, Paid(b), w, k, i);
  }

  lemma {:induction false} SeenBelowTip(cfg: Config, sys: System, paid: nat -> Owed, w: World, k: nat)
    requires AllMinted(cfg, sys, paid, w) && sys.initial.height < k <= w.header.tipHeight
    ensures Seen(sys, k)
  {
  }

  lemma {:induction false} ConfirmedMint(cfg: Config, sys: System, paid: nat -> Owed, w: World, k: nat, i: nat)
    requires AllMinted(cfg, sys, paid, w) && i < |paid(k).mints|
    requires sys.initial.height < k && k + cfg.confirmations <= sys.Committed(w).height
    ensures MintMinted(cfg, sys, paid, w, k, i)
  {
    assert MintMinted(cfg, sys, paid, w, k, i);
  }

  lemma {:induction false} PaymentAt(b: Bridge, k: nat, owed: Owed, i: nat)
    requires i < |b.BlockPayments(k)|
    ensures MintsPayments(b, k, owed) ==>
              && i < |owed.mints| == |owed.txoIndices|
              && Settles(b, k, b.BlockPayments(k)[i], owed.mints[i], owed.txoIndices[i])
  {
  }
}
