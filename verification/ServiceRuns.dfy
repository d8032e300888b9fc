/** The commit protocol on top of the pipeline: what the service stores and mints, over every run
    with crashes, in terms of the blocks it has prepared. */
module ServiceRuns {
  import opened Wrappers
  import opened MachineInts
  import opened Checkpoints
  import opened PipelineRuns
  import opened Finalization
  import opened CommitProtocol
  import opened CommitSafety
  import opened CommitLineage

  /** `p` is what preparing a block that is offered for the next height on top of `cp` gives. */
  ghost predicate Prepares(cfg: Config, sys: System, cp: Checkpoint, p: Prepared) {
    exists input :: sys.offers(cp.height + 1, input) && PreparesWith(cfg, cp, p, input)
  }

  ghost predicate PreparesWith(cfg: Config, cp: Checkpoint, p: Prepared, input: Input) {
    PrepareNext(cfg, cp, input) == Ok((p.next, p.commitment))
  }

  /** The system is this pipeline's: fresh checkpoint, validation and preparation are its own. */
  ghost predicate Serves(cfg: Config, sys: System) {
    && sys.initial == InitialCheckpoint(cfg, sys.initial.height, sys.initial.header)
    && (forall cp: Checkpoint {:trigger ValidateCheckpoint(cfg, cp)} ::
          sys.validates(cp) <==> ValidateCheckpoint(cfg, cp).Ok?)
    && (forall cp: Checkpoint, p: Prepared {:trigger Prepares(cfg, sys, cp, p)} ::
          sys.prepares(cp, p) <==> Prepares(cfg, sys, cp, p))
  }

  // ---------- a line of prepared transitions is a run of the pipeline ----------

  lemma {:induction false} PrepareRunSnoc(cfg: Config, cp: Checkpoint, inputs: seq<Input>, input: Input)
    ensures PrepareRun(cfg, cp, inputs).Ok? ==>
              PrepareRun(cfg, cp, inputs + [input]) == PrepareStep(cfg, PrepareRun(cfg, cp, inputs).value, input)
  {
    assert (inputs + [input])[..|inputs|] == inputs;
  }

  /** Each input is offered for its height. */
  ghost predicate Offered(sys: System, inputs: seq<Input>) {
    forall i {:trigger inputs[i]} :: 0 <= i < |inputs| ==> sys.offers(sys.initial.height + 1 + i, inputs[i])
  }

  /** `inputs` are blocks out of which a run from the initial checkpoint makes `cp`, finalizing
      `finalized` on the way. */
  ghost predicate Makes(cfg: Config, sys: System, inputs: seq<Input>, cp: Checkpoint, finalized: seq<Commitment>) {
    PrepareRun(cfg, sys.initial, inputs) == Ok(Progress(cp, finalized)) && Offered(sys, inputs)
  }

  lemma {:induction false} PreparedIsStep(
    cfg: Config, cp: Checkpoint, finalized: seq<Commitment>, p: Prepared, input: Input)
    requires PreparesWith(cfg, cp, p, input)
    ensures PrepareStep(cfg, Progress(cp, finalized), input) == Ok(Progress(p.next, finalized + [p.commitment]))
  {
  }

  /** One more prepared transition is one more block. */
  lemma {:induction false} OneMoreBlock(
    cfg: Config, sys: System, inputs: seq<Input>, cp: Checkpoint, finalized: seq<Commitment>, p: Prepared)
    returns (input: Input)
    requires Serves(cfg, sys) && sys.prepares(cp, p)
    ensures Makes(cfg, sys, inputs, cp, finalized) && cp.height == sys.initial.height + |inputs| ==>
              Makes(cfg, sys, inputs + [input], p.next, finalized + [p.commitment])
  {
    assert Prepares(cfg, sys, cp, p);
    input :| sys.offers(cp.height + 1, input) && PreparesWith(cfg, cp, p, input);
    if Makes(cfg, sys, inputs, cp, finalized) {
      PreparedIsStep(cfg, cp, finalized, p, input);
      PrepareRunSnoc(cfg, sys.initial, inputs, input);
      OfferedSnoc(sys, inputs, input, cp.height + 1);
    }
  }

  lemma {:induction false} OfferedSnoc(sys: System, inputs: seq<Input>, input: Input, h: nat)
    requires Offered(sys, inputs) && sys.offers(h, input)
    ensures h == sys.initial.height + 1 + |inputs| ==> Offered(sys, inputs + [input])
  {
  }

  function Commitments(line: seq<Prepared>): (cs: seq<Commitment>)
    ensures |cs| == |line|
    ensures forall i {:trigger cs[i]} :: 0 <= i < |line| ==> cs[i] == line[i].commitment
  {
    if line == [] then [] else Commitments(line[..|line| - 1]) + [line[|line| - 1].commitment]
  }

  /** The first `k` inputs make the first `k` transitions. */
  ghost predicate MakesLine(cfg: Config, sys: System, inputs: seq<Input>, line: seq<Prepared>, k: nat)
    requires k <= |inputs| && k <= |line|
  {
    Makes(cfg, sys, inputs[..k], After(sys, line, k), Commitments(line[..k]))
  }

  lemma {:induction false} MakesNow(
    cfg: Config, sys: System, line: seq<Prepared>, inputs: seq<Input>, k: nat,
    cp: Checkpoint, finalized: seq<Commitment>)
    requires |inputs| == k <= |line| && cp == After(sys, line, k) && finalized == Commitments(line[..k])
    ensures Makes(cfg, sys, inputs, cp, finalized) ==> MakesLine(cfg, sys, inputs, line, k)
  {
    assert inputs[..k] == inputs;
  }

  lemma {:induction false} MakesStays(
    cfg: Config, sys: System, line: seq<Prepared>, earlier: seq<Input>, inputs: seq<Input>, k: nat)
    requires earlier <= inputs && k <= |earlier| && k <= |line| && MakesLine(cfg, sys, earlier, line, k)
    ensures MakesLine(cfg, sys, inputs, line, k)
  {
    assert inputs[..k] == earlier[..k];
  }

  /** `inputs` make the line, transition by transition. */
  ghost predicate MakeLine(cfg: Config, sys: System, inputs: seq<Input>, line: seq<Prepared>) {
    |inputs| == |line| && MakesUpTo(cfg, sys, inputs, line, |line|)
  }

  lemma {:induction false} CommitmentsSnoc(line: seq<Prepared>, n: nat)
    requires n < |line|
    ensures Commitments(line[..n + 1]) == Commitments(line[..n]) + [line[n].commitment]
  {
    assert line[..n + 1][..n] == line[..n];
  }

  lemma {:induction false} LineIsRun(cfg: Config, sys: System, line: seq<Prepared>) returns (inputs: seq<Input>)
    requires Serves(cfg, sys) && CommitLineage.Linked(sys, line)
    ensures MakeLine(cfg, sys, inputs, line)
  {
    inputs := [];
    var cp, finalized: seq<Commitment> := sys.initial, [];
    MakesNow(cfg, sys, line, inputs, 0, cp, finalized);
    for n := 0 to |line|
      invariant |inputs| == n && cp == After(sys, line, n) && finalized == Commitments(line[..n])
      invariant cp.height == sys.initial.height + n && Makes(cfg, sys, inputs, cp, finalized)
      invariant MakesUpTo(cfg, sys, inputs, line, n)
    {
      assert Link(sys, line, n);
      var earlier := inputs;
      var input := OneMoreBlock(cfg, sys, inputs, cp, finalized, line[n]);
      CommitmentsSnoc(line, n);
      inputs, cp, finalized := inputs + [input], line[n].next, finalized + [line[n].commitment];
      MakesNow(cfg, sys, line, inputs, n + 1, cp, finalized);
      MakesOneMore(cfg, sys, line, earlier, inputs, n);
    }
  }

  ghost predicate MakesUpTo(cfg: Config, sys: System, inputs: seq<Input>, line: seq<Prepared>, n: nat) {
    && n <= |inputs| && n <= |line|
    && forall k {:trigger MakesLine(cfg, sys, inputs, line, k)} :: 0 <= k <= n ==>
         MakesLine(cfg, sys, inputs, line, k)
  }

  lemma {:induction false} MakesOneMore(
    cfg: Config, sys: System, line: seq<Prepared>, earlier: seq<Input>, inputs: seq<Input>, n: nat)
    requires earlier <= inputs && n < |inputs| && n < |line|
    ensures MakesUpTo(cfg, sys, earlier, line, n) && MakesLine(cfg, sys, inputs, line, n + 1) ==>
              MakesUpTo(cfg, sys, inputs, line, n + 1)
  {
    if MakesUpTo(cfg, sys, earlier, line, n) && MakesLine(cfg, sys, inputs, line, n + 1) {
      forall k | 0 <= k <= n
        ensures MakesLine(cfg, sys, inputs, line, k)
      {
        MakesStays(cfg, sys, line, earlier, inputs, k);
      }
    }
  }

  // ---------- what is owed and what is minted ----------

  /** What the update to height `h` owes: the commitment of the block that then has its
      confirmations, if the run has seen that block. */
  function Due(cfg: Config, start: nat, inputs: seq<Input>, h: nat): Commitment
    requires start < h <= start + |inputs|
  {
    if h - cfg.confirmations > start then CommitmentAt(inputs, h - cfg.confirmations - start - 1)
    else cfg.EmptyCommitment()
  }

  lemma {:induction false} DueIsEarlierBlock(cfg: Config, start: nat, inputs: seq<Input>, k: nat, i: nat)
    requires start < k && k + cfg.confirmations <= start + |inputs| && i == k - start - 1
    ensures Due(cfg, start, inputs, k + cfg.confirmations) == CommitmentAt(inputs, i)
  {
  }

  /** The chain is where a run of the pipeline over `inputs` ends, and the stored checkpoint is on
      that run. */
  ghost predicate StandsOn(cfg: Config, sys: System, w: World, inputs: seq<Input>) {
    var start, stored := sys.initial.height, sys.Committed(w);
    && w.header.tipHeight == start + |inputs| && start <= stored.height <= start + |inputs|
    && Offered(sys, inputs)
    && PrepareRun(cfg, sys.initial, inputs).Ok?
    && PrepareRun(cfg, sys.initial, inputs).value.checkpoint.header == w.header
    && PrepareRun(cfg, sys.initial, inputs[..stored.height - start]).Ok?
    && PrepareRun(cfg, sys.initial, inputs[..stored.height - start]).value.checkpoint == stored
  }

  /** Every update has authorised what the pipeline owed at its height. */
  ghost predicate AuthorisesDue(cfg: Config, sys: System, w: World, inputs: seq<Input>) {
    var start := sys.initial.height;
    forall h: nat {:trigger w.authorised[h]} {:trigger h in w.authorised} :: start < h <= start + |inputs| ==>
      h in w.authorised && w.authorised[h] == Due(cfg, start, inputs, h)
  }

  ghost predicate FollowsBlocks(cfg: Config, sys: System, w: World, inputs: seq<Input>) {
    StandsOn(cfg, sys, w, inputs) && AuthorisesDue(cfg, sys, w, inputs)
  }

  /** Nothing but what is due has been minted, each group once and block by block; up to the stored
      checkpoint, all that is due. */
  ghost predicate MintsDue(cfg: Config, sys: System, w: World, inputs: seq<Input>) {
    var start := sys.initial.height;
    && sys.Committed(w).height <= start + |inputs|
    && (forall i, j :: 0 <= i < j < |w.minted| ==> w.minted[i] != w.minted[j] && w.minted[i].0 <= w.minted[j].0)
    && (forall h: nat, g: nat {:trigger (h, g) in w.minted} :: (h, g) in w.minted ==>
          start < h <= start + |inputs| && g < sys.Groups(Due(cfg, start, inputs, h)))
    && (forall h: nat, g: nat {:trigger (h, g) in w.minted} ::
          start < h <= sys.Committed(w).height && g < sys.Groups(Due(cfg, start, inputs, h)) ==>
          (h, g) in w.minted)
  }

  lemma {:induction false} MadeWindow(
    cfg: Config, sys: System, inputs: seq<Input>, cp: Checkpoint, finalized: seq<Commitment>)
    requires Serves(cfg, sys) && cfg.confirmations >= 1 && Makes(cfg, sys, inputs, cp, finalized)
    ensures Window(cfg, sys.initial.height, inputs, cp.pending, finalized)
  {
    PrepareRunIsRun(cfg, sys.initial, inputs);
    PendingIsTheUnconfirmedWindow(cfg, sys.initial.height, sys.initial.header, inputs);
  }

  lemma {:induction false} FinalizedIsDue(
    cfg: Config, start: nat, inputs: seq<Input>, pending: map<nat, Commitment>, finalized: seq<Commitment>, h: nat)
    requires cfg.confirmations >= 1 && Window(cfg, start, inputs, pending, finalized)
    requires start < h <= start + |inputs|
    ensures finalized[h - start - 1] == Due(cfg, start, inputs, h)
  {
  }

  lemma {:induction false} LineStandsOn(cfg: Config, sys: System, w: World, line: seq<Prepared>, inputs: seq<Input>)
    requires IsLine(sys, w, line) && MakeLine(cfg, sys, inputs, line)
    ensures StandsOn(cfg, sys, w, inputs)
  {
    assert MakesLine(cfg, sys, inputs, line, |line|) && inputs[..|line|] == inputs;
    assert MakesLine(cfg, sys, inputs, line, sys.Committed(w).height - sys.initial.height);
  }

  lemma {:induction false} LineAuthorisesDue(
    cfg: Config, sys: System, w: World, line: seq<Prepared>, inputs: seq<Input>)
    requires Serves(cfg, sys) && cfg.confirmations >= 1 && IsLine(sys, w, line) && MakeLine(cfg, sys, inputs, line)
    ensures AuthorisesDue(cfg, sys, w, inputs)
  {
    var n := |line|;
    assert MakesLine(cfg, sys, inputs, line, n) && inputs[..n] == inputs && line[..n] == line;
    MadeWindow(cfg, sys, inputs, After(sys, line, n), Commitments(line));
    WindowAuthorisesDue(cfg, sys, w, line, inputs, After(sys, line, n).pending);
  }

  lemma {:induction false} WindowAuthorisesDue(
    cfg: Config, sys: System, w: World, line: seq<Prepared>, inputs: seq<Input>, pending: map<nat, Commitment>)
    requires cfg.confirmations >= 1 && IsLine(sys, w, line) && |inputs| == |line|
    requires Window(cfg, sys.initial.height, inputs, pending, Commitments(line))
    ensures AuthorisesDue(cfg, sys, w, inputs)
  {
    var start, n := sys.initial.height, |line|;
    forall h: nat {:trigger w.authorised[h]} {:trigger h in w.authorised} | start < h <= start + n
      ensures h in w.authorised && w.authorised[h] == Due(cfg, start, inputs, h)
    {
      assert h in w.authorised;
      FinalizedIsDue(cfg, start, inputs, pending, Commitments(line), h);
    }
  }

  lemma {:induction false} PrefixOfLine(
    cfg: Config, sys: System, line: seq<Prepared>, inputs: seq<Input>, m: nat)
    requires MakeLine(cfg, sys, inputs, line) && m <= |line|
    ensures MakeLine(cfg, sys, inputs[..m], line[..m])
  {
    forall k | 0 <= k <= m
      ensures MakesLine(cfg, sys, inputs[..m], line[..m], k)
    {
      assert MakesLine(cfg, sys, inputs, line, k);
      assert inputs[..m][..k] == inputs[..k] && line[..m][..k] == line[..k];
      assert After(sys, line[..m], k) == After(sys, line, k);
    }
  }

  lemma {:induction false} MintsAreDue(cfg: Config, sys: System, events: seq<Event>, inputs: seq<Input>)
    requires sys.Valid() && Exec(sys, sys.Init(), events).Some?
    requires AuthorisesDue(cfg, sys, Exec(sys, sys.Init(), events).value.world, inputs)
    requires Exec(sys, sys.Init(), events).value.world.header.tipHeight == sys.initial.height + |inputs|
    ensures MintsDue(cfg, sys, Exec(sys, sys.Init(), events).value.world, inputs)
  {
    ReachableInv(sys, events);
    MintedExactlyOnce(sys, events);
  }

  /** After `n` events, chain, checkpoint and mints are those of as many blocks as the chain has
      taken. */
  ghost predicate ExplainedAt(cfg: Config, sys: System, events: seq<Event>, inputs: seq<Input>, n: nat)
    requires n <= |events|
  {
    var s := Exec(sys, sys.Init(), events[..n]);
    && s.Some?
    && var k := s.value.world.header.tipHeight - sys.initial.height;
    && 0 <= k <= |inputs|
    && FollowsBlocks(cfg, sys, s.value.world, inputs[..k]) && MintsDue(cfg, sys, s.value.world, inputs[..k])
  }

  /** For every run of the service, crashes included, there is one sequence of blocks such that at
      each of its moments the chain, the stored checkpoint and the authorised mints are those of the
      pipeline over these blocks: what is authorised at height `h` is the commitment of block
      `h - confirmations`, and nothing for the first heights. Nothing else is ever minted, and up to
      the stored checkpoint all of it is, each group exactly once. */
  lemma {:induction false} MintsWhatBlocksOwe(cfg: Config, sys: System, events: seq<Event>) returns (inputs: seq<Input>)
    requires Serves(cfg, sys) && cfg.confirmations >= 1
    requires sys.Valid() && Exec(sys, sys.Init(), events).Some?
    ensures forall n {:trigger ExplainedAt(cfg, sys, events, inputs, n)} :: 0 <= n <= |events| ==>
              ExplainedAt(cfg, sys, events, inputs, n)
    ensures FollowsBlocks(cfg, sys, Exec(sys, sys.Init(), events).value.world, inputs)
    ensures MintsDue(cfg, sys, Exec(sys, sys.Init(), events).value.world, inputs)
  {
    var line := LineOf(sys, events);
    inputs := LineIsRun(cfg, sys, line);
    forall n | 0 <= n <= |events|
      ensures ExplainedAt(cfg, sys, events, inputs, n)
    {
      ExplainMoment(cfg, sys, events, line, inputs, n);
    }
    ExplainEnd(cfg, sys, events, line, inputs);
  }

  lemma {:induction false} ExplainEnd(
    cfg: Config, sys: System, events: seq<Event>, line: seq<Prepared>, inputs: seq<Input>)
    requires Serves(cfg, sys) && cfg.confirmations >= 1 && sys.Valid() && Exec(sys, sys.Init(), events).Some?
    requires IsLine(sys, Exec(sys, sys.Init(), events).value.world, line) && MakeLine(cfg, sys, inputs, line)
    ensures FollowsBlocks(cfg, sys, Exec(sys, sys.Init(), events).value.world, inputs)
    ensures MintsDue(cfg, sys, Exec(sys, sys.Init(), events).value.world, inputs)
  {
    var w := Exec(sys, sys.Init(), events).value.world;
    LineStandsOn(cfg, sys, w, line, inputs);
    LineAuthorisesDue(cfg, sys, w, line, inputs);
    MintsAreDue(cfg, sys, events, inputs);
  }

  lemma {:induction false} BlocksOfRun(cfg: Config, sys: System, events: seq<Event>, s: State)
    returns (inputs: seq<Input>)
    requires Serves(cfg, sys) && cfg.confirmations >= 1
    requires sys.Valid() && Exec(sys, sys.Init(), events) == Some(s)
    ensures FollowsBlocks(cfg, sys, s.world, inputs) && s.world.header.tipHeight == sys.initial.height + |inputs|
  {
    inputs := MintsWhatBlocksOwe(cfg, sys, events);
  }

  lemma {:induction false} ExplainMoment(
    cfg: Config, sys: System, events: seq<Event>, line: seq<Prepared>, inputs: seq<Input>, n: nat)
    requires Serves(cfg, sys) && cfg.confirmations >= 1 && sys.Valid()
    requires n <= |events| && OnLine(sys, events, line, n) && MakeLine(cfg, sys, inputs, line)
    ensures ExplainedAt(cfg, sys, events, inputs, n)
  {
    var w := Exec(sys, sys.Init(), events[..n]).value.world;
    var k := w.header.tipHeight - sys.initial.height;
    PrefixOfLine(cfg, sys, line, inputs, k);
    LineStandsOn(cfg, sys, w, line[..k], inputs[..k]);
    LineAuthorisesDue(cfg, sys, w, line[..k], inputs[..k]);
    MintsAreDue(cfg, sys, events[..n], inputs[..k]);
  }

  /** Once the stored checkpoint has caught up with the chain, all the blocks make it. */
  lemma {:induction false} CommittedIsMade(cfg: Config, sys: System, w: World, inputs: seq<Input>)
    returns (finalized: seq<Commitment>)
    ensures FollowsBlocks(cfg, sys, w, inputs) && sys.Committed(w).height == w.header.tipHeight ==>
              Makes(cfg, sys, inputs, sys.Committed(w), finalized)
  {
    assert inputs[..|inputs|] == inputs;
    var run := PrepareRun(cfg, sys.initial, inputs);
    finalized := if run.Ok? then run.value.finalized else [];
  }

  // ---------- what the chain's header says ----------

  lemma {:induction false} MadeHeader(
    cfg: Config, sys: System, inputs: seq<Input>, cp: Checkpoint, finalized: seq<Commitment>)
    requires Serves(cfg, sys) && cfg.confirmations >= 1 && inputs != []
    ensures Makes(cfg, sys, inputs, cp, finalized) ==> HeaderBinds(cfg, sys.initial.header.kept, inputs, cp)
  {
    if Makes(cfg, sys, inputs, cp, finalized) {
      PrepareRunIsRun(cfg, sys.initial, inputs);
      RunHeader(cfg, sys.initial.height, sys.initial.header, inputs);
    }
  }

  /** The header is bound to what the update to its height authorised minting. */
  ghost predicate HeaderAuthorises(sys: System, w: World) {
    var tip := w.header.tipHeight;
    tip > sys.initial.height ==>
      && tip in w.authorised && w.header.mintsHash == w.authorised[tip].mintsHash
      && w.header.txoHash == w.authorised[tip].txoHash
  }

  lemma {:induction false} BoundHeaderAuthorises(
    cfg: Config, sys: System, w: World, inputs: seq<Input>, cp: Checkpoint)
    requires AuthorisesDue(cfg, sys, w, inputs) && w.header.tipHeight == sys.initial.height + |inputs|
    requires cp.header == w.header && (inputs != [] ==> HeaderBinds(cfg, sys.initial.header.kept, inputs, cp))
    ensures HeaderAuthorises(sys, w)
  {
    var tip := w.header.tipHeight;
    if inputs != [] {
      assert tip in w.authorised && w.authorised[tip] == Due(cfg, sys.initial.height, inputs, tip);
    }
  }

  lemma {:induction false} ChainCheckpoint(cfg: Config, sys: System, w: World, inputs: seq<Input>)
    returns (cp: Checkpoint, finalized: seq<Commitment>)
    ensures FollowsBlocks(cfg, sys, w, inputs) ==> Makes(cfg, sys, inputs, cp, finalized) && cp.header == w.header
  {
    var run := PrepareRun(cfg, sys.initial, inputs);
    cp, finalized := sys.initial, [];
    if run.Ok? {
      cp, finalized := run.value.checkpoint, run.value.finalized;
    }
  }

  /** Over every run, crashes included: the on-chain header belongs to the checkpoint that the blocks
      lead to, is bound to its state and to the block seen `confirmations` heights before, and
      carries the hashes of exactly what the update to its height authorised minting. */
  lemma {:induction false} ChainHeaderBinds(cfg: Config, sys: System, events: seq<Event>)
    returns (inputs: seq<Input>, cp: Checkpoint)
    requires Serves(cfg, sys) && cfg.confirmations >= 1
    requires sys.Valid() && Exec(sys, sys.Init(), events).Some?
    ensures var w := Exec(sys, sys.Init(), events).value.world;
            && w.header == cp.header && w.header.tipHeight == sys.initial.height + |inputs| && Offered(sys, inputs)
            && (inputs != [] ==> HeaderBinds(cfg, sys.initial.header.kept, inputs, cp))
            && HeaderAuthorises(sys, w)
  {
    var s := Exec(sys, sys.Init(), events).value;
    inputs := BlocksOfRun(cfg, sys, events, s);
    var finalized;
    cp, finalized := ChainCheckpoint(cfg, sys, s.world, inputs);
    if inputs != [] {
      MadeHeader(cfg, sys, inputs, cp, finalized);
    }
    BoundHeaderAuthorises(cfg, sys, s.world, inputs, cp);
  }

  // ---------- an unconfigured start ----------

  /** With no start height configured, the crash of a first commit whose update has landed is
      recovered exactly if the next start still derives the same height; once the tip has
      moved it fails closed. */
  lemma {:induction false} UnconfiguredStartFailsClosed(
    cfg: Config, sys: System, p: Prepared, tip: u32, laterTip: u32, moved: Checkpoint)
    requires InitializeCheckpoint(cfg, tip, None, sys.initial.header) == Ok(sys.initial)
    requires InitializeCheckpoint(cfg, laterTip, None, sys.initial.header) == Ok(moved)
    requires sys.initial.header.tipHeight == sys.initial.height && laterTip - cfg.confirmations < U32_MAX
    requires p.next.height == sys.initial.height + 1 == p.next.header.tipHeight && sys.validates(p.next)
    requires sys.prepares(sys.initial, p)
    ensures var crashed := Exec(sys, sys.Init(), FirstCommitLanded(p));
            && crashed.Some?
            && var restarted := Restarted(sys.(initial := moved), crashed.value);
            && restarted.Some?
            && (restarted.value.proc == FailedClosed <==> laterTip != tip)
  {
    MovedStartFailsClosed(sys, p, moved);
  }
}
