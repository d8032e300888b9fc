/** Whole runs of the pipeline, every block prepared as the service does it: evolution between two
    validations. They are runs of the bare evolution, for as long as the limits allow. */
module PipelineRuns {
  import opened Wrappers
  import opened MachineInts
  import opened MerklePaths
  import opened Checkpoints

  /** The next height, prepared. */
  function PrepareNext(cfg: Config, cp: Checkpoint, input: Input): Result<(Checkpoint, Commitment), CheckpointError> {
    var height := NextHeight(cp);
    if height == None then Err(HeightOverflow) else Prepare(cfg, cp, height.value, input)
  }

  lemma {:induction false} NextIsPrepare(cfg: Config, cp: Checkpoint, height: u32, input: Input)
    requires NextHeight(cp) == Some(height)
    ensures PrepareNext(cfg, cp, input) == Prepare(cfg, cp, height, input)
  {
  }

  /** The next height is one above, as long as there is one; past the last there is nothing to prepare. */
  lemma {:induction false} NextPreparation(cfg: Config, cp: Checkpoint, height: nat, input: Input)
    requires height == cp.height + 1
    ensures NextHeight(cp) == if height <= U32_MAX then Some(height) else None
    ensures PrepareNext(cfg, cp, input)
            == if height <= U32_MAX then Prepare(cfg, cp, height, input) else Err(HeightOverflow)
  {
    HeightIsNext(cp, height);
    if height <= U32_MAX {
      NextIsPrepare(cfg, cp, height, input);
    } else {
      NothingNext(cfg, cp, input);
    }
  }

  lemma {:induction false} HeightIsNext(cp: Checkpoint, height: nat)
    requires height == cp.height + 1
    ensures NextHeight(cp) == if height <= U32_MAX then Some(height) else None
  {
  }

  lemma {:induction false} NothingNext(cfg: Config, cp: Checkpoint, input: Input)
    requires NextHeight(cp) == None
    ensures PrepareNext(cfg, cp, input) == Err(HeightOverflow)
  {
  }

  function PrepareStep(cfg: Config, before: Progress, input: Input): Result<Progress, CheckpointError> {
    Extend(before, PrepareNext(cfg, before.checkpoint, input))
  }

  function Extend(before: Progress, next: Result<(Checkpoint, Commitment), CheckpointError>)
    : Result<Progress, CheckpointError>
  {
    if next.Err? then Err(next.error) else Ok(Progress(next.value.0, before.finalized + [next.value.1]))
  }

  function PrepareRun(cfg: Config, cp: Checkpoint, inputs: seq<Input>): Result<Progress, CheckpointError>
    decreases |inputs|
  {
    if inputs == [] then Ok(Progress(cp, []))
    else
      var before := PrepareRun(cfg, cp, inputs[..|inputs| - 1]);
      if before.Err? then Err(before.error) else PrepareStep(cfg, before.value, inputs[|inputs| - 1])
  }

  // ---------- runs of the service are runs of the evolution ----------

  lemma {:induction false} PrepareStepIsStep(cfg: Config, before: Progress, input: Input)
    requires PrepareStep(cfg, before, input).Ok?
    ensures Step(cfg, before, input) == PrepareStep(cfg, before, input)
  {
  }

  lemma {:induction false} PrepareRunIsRun(cfg: Config, cp: Checkpoint, inputs: seq<Input>)
    ensures PrepareRun(cfg, cp, inputs).Ok? ==> Run(cfg, cp, inputs) == PrepareRun(cfg, cp, inputs)
    decreases |inputs|
  {
    if inputs != [] && PrepareRun(cfg, cp, inputs).Ok? {
      var earlier := inputs[..|inputs| - 1];
      PrepareRunIsRun(cfg, cp, earlier);
      PrepareStepIsStep(cfg, PrepareRun(cfg, cp, earlier).value, inputs[|inputs| - 1]);
    }
  }

  /** Every checkpoint of a run but the first is within the limits. */
  ghost predicate LimitsAlong(cfg: Config, cp: Checkpoint, inputs: seq<Input>)
    requires Run(cfg, cp, inputs).Ok?
    decreases |inputs|
  {
    inputs == []
    || (LimitsAlong(cfg, cp, inputs[..|inputs| - 1]) && WithinLimits(cfg, Run(cfg, cp, inputs).value.checkpoint))
  }

  lemma {:induction false} PrepareStepCondition(cfg: Config, before: Progress, blocks: seq<Digest>, input: Input)
    requires Tracks(cfg, before.checkpoint, blocks)
    ensures PrepareStep(cfg, before, input).Ok? <==>
              && FitsTrees(cfg, before.checkpoint) && Step(cfg, before, input).Ok?
              && WithinLimits(cfg, Step(cfg, before, input).value.checkpoint)
  {
    var height := NextHeight(before.checkpoint);
    if height.Some? {
      PrepareCondition(cfg, before.checkpoint, blocks, height.value, input);
    }
  }

  /** A fresh pipeline gets through its blocks exactly when the evolution does and every checkpoint
      on the way is within the limits. */
  lemma {:induction false} PrepareRunCondition(cfg: Config, start: u32, header: Header, inputs: seq<Input>)
    ensures var cp := InitialCheckpoint(cfg, start, header);
            PrepareRun(cfg, cp, inputs).Ok? <==> Run(cfg, cp, inputs).Ok? && LimitsAlong(cfg, cp, inputs)
    decreases |inputs|
  {
    if inputs != [] {
      var cp, earlier, last := InitialCheckpoint(cfg, start, header), inputs[..|inputs| - 1], inputs[|inputs| - 1];
      PrepareRunCondition(cfg, start, header, earlier);
      if Run(cfg, cp, earlier).Ok? && LimitsAlong(cfg, cp, earlier) {
        PrepareRunIsRun(cfg, cp, earlier);
        RunTracks(cfg, start, header, earlier);
        var before := Run(cfg, cp, earlier).value;
        var blocks := BlocksSeen(cfg, start, earlier);
        PrepareStepCondition(cfg, before, blocks, last);
        if Step(cfg, before, last).Ok? {
          StepTracks(cfg, before, blocks, last);
        }
      }
    }
  }

  // ---------- where the two modes part ----------

  /** `n` blocks from `start` do not run into the limit on the stored history: either none is
      stored, or it still has room. */
  predicate HistoryHasRoom(start: nat, n: nat) {
    n == 0 || start > 1_000_000 || start + n < 1_000_000
  }

  function ForgetPrepared(r: Result<(Checkpoint, Commitment), CheckpointError>)
    : Result<(Checkpoint, Commitment), CheckpointError>
  {
    if r.Err? then r else Ok((ForgetHistory(r.value.0), r.value.1))
  }

  /** Validation with and without the block history. */
  lemma {:induction false} ValidationModes(cfg: Config, cp: Checkpoint, blocks: seq<Digest>)
    requires Tracks(cfg, cp, blocks)
    ensures var long, short := ValidateCheckpoint(cfg, cp), ValidateCheckpoint(cfg, ForgetHistory(cp));
            var room := |cp.txoHistory| <= HISTORY_LIMIT;
            && (long.Ok? <==> short.Ok? && room)
            && (room ==> short == long)
  {
    ValidationIs(cfg, cp, blocks);
    ValidationIs(cfg, ForgetHistory(cp), blocks);
    assert ValidateFrontiers(cfg, ForgetHistory(cp)) == ValidateFrontiers(cfg, cp);
  }

  lemma {:induction false} EvolvedHistory(cfg: Config, cp: Checkpoint, blocks: seq<Digest>, height: u32, input: Input)
    requires Tracks(cfg, cp, blocks) && NextHeight(cp) == Some(height) && Evolve(cfg, cp, height, input).Ok?
    ensures var next := Evolve(cfg, cp, height, input).value.0;
            |next.txoHistory| == if cp.txoHistory == [] then 0 else cp.height + 2
  {
    AdvanceTracks(cfg, cp, blocks, input.evaluation.blockTxoRoot, height);
  }

  lemma {:induction false} HeightModes(cfg: Config, cp: Checkpoint, blocks: seq<Digest>, height: u32, input: Input)
    requires Tracks(cfg, cp, blocks) && NextHeight(cp) == Some(height)
    ensures var long, short := Prepare(cfg, cp, height, input), Prepare(cfg, ForgetHistory(cp), height, input);
            var room := cp.txoHistory == [] || height < HISTORY_LIMIT;
            && (long.Ok? <==> short.Ok? && room)
            && (room ==> short == ForgetPrepared(long))
  {
    EvolveWithoutHistoryIsSame(cfg, cp, blocks, height, input);
    assert ValidateFrontiers(cfg, ForgetHistory(cp)) == ValidateFrontiers(cfg, cp);
    var evolved := Evolve(cfg, cp, height, input);
    if evolved.Ok? {
      EvolveTracks(cfg, cp, blocks, height, input);
      EvolvedHistory(cfg, cp, blocks, height, input);
      ValidationModes(cfg, evolved.value.0, blocks + [input.evaluation.blockTxoRoot]);
    }
  }

  /** One height prepared with and without the block history: the same outcome, unless the stored
      history is full. */
  lemma {:induction false} PrepareModes(cfg: Config, cp: Checkpoint, blocks: seq<Digest>, input: Input)
    requires Tracks(cfg, cp, blocks) && cp.height < U32_MAX
    ensures var long, short := PrepareNext(cfg, cp, input), PrepareNext(cfg, ForgetHistory(cp), input);
            var room := cp.txoHistory == [] || cp.height + 1 < HISTORY_LIMIT;
            && (long.Ok? <==> short.Ok? && room)
            && (room ==> short == ForgetPrepared(long))
  {
    var height := NextHeight(cp).value;
    HeightModes(cfg, cp, blocks, height, input);
    NextIsPrepare(cfg, cp, height, input);
    NextIsPrepare(cfg, ForgetHistory(cp), height, input);
  }

  /** A pipeline that starts at the limit or below stores every block since. */
  lemma {:induction false} HistoryIsKept(cfg: Config, start: u32, header: Header, inputs: seq<Input>)
    requires Run(cfg, InitialCheckpoint(cfg, start, header), inputs).Ok?
    ensures var cp := Run(cfg, InitialCheckpoint(cfg, start, header), inputs).value.checkpoint;
            cp.txoHistory == [] <==> start > HISTORY_LIMIT
    decreases |inputs|
  {
    if inputs != [] {
      var earlier := inputs[..|inputs| - 1];
      HistoryIsKept(cfg, start, header, earlier);
      RunTracks(cfg, start, header, earlier);
      var before := Run(cfg, InitialCheckpoint(cfg, start, header), earlier).value.checkpoint;
      var root := inputs[|inputs| - 1].evaluation.blockTxoRoot;
      AdvanceTracks(cfg, before, BlocksSeen(cfg, start, earlier), root, NextHeight(before).value);
    }
  }

  lemma {:induction false} StepModes(
    cfg: Config, start: nat, n: nat, before: Progress, blocks: seq<Digest>, input: Input)
    requires Tracks(cfg, before.checkpoint, blocks) && before.checkpoint.height + 1 == start + n && n > 0
    requires before.checkpoint.txoHistory == [] <==> start > HISTORY_LIMIT
    ensures var long := PrepareStep(cfg, before, input);
            var short := PrepareStep(cfg, before.(checkpoint := ForgetHistory(before.checkpoint)), input);
            && (long.Ok? <==> short.Ok? && HistoryHasRoom(start, n))
            && (HistoryHasRoom(start, n) ==> short == ForgetOutcome(long))
  {
    var cp := before.checkpoint;
    if cp.height < U32_MAX {
      PrepareModes(cfg, cp, blocks, input);
      assert HistoryHasRoom(start, n) <==> cp.txoHistory == [] || cp.height + 1 < HISTORY_LIMIT;
      ExtendModes(before, PrepareNext(cfg, cp, input));
    }
  }

  lemma ExtendModes(before: Progress, long: Result<(Checkpoint, Commitment), CheckpointError>)
    ensures Extend(before.(checkpoint := ForgetHistory(before.checkpoint)), ForgetPrepared(long))
            == ForgetOutcome(Extend(before, long))
  {
  }

  /** What the earlier blocks leave to the last one. */
  lemma {:induction false} BeforeLast(cfg: Config, start: u32, header: Header, inputs: seq<Input>)
    ensures var run := PrepareRun(cfg, InitialCheckpoint(cfg, start, header), inputs);
            run.Ok? ==>
              && Tracks(cfg, run.value.checkpoint, BlocksSeen(cfg, start, inputs))
              && run.value.checkpoint.height == start + |inputs|
              && (run.value.checkpoint.txoHistory == [] <==> start > HISTORY_LIMIT)
  {
    if PrepareRun(cfg, InitialCheckpoint(cfg, start, header), inputs).Ok? {
      PrepareRunIsRun(cfg, InitialCheckpoint(cfg, start, header), inputs);
      RunTracks(cfg, start, header, inputs);
      HistoryIsKept(cfg, start, header, inputs);
    }
  }

  /** Mode equivalence of the service: preparing block by block with and without the block history
      gives the same outcome, errors included, as long as the history has room; from then on the
      pipeline that keeps it prepares nothing. So from a start at the limit or below, `n >= 1`
      blocks get through only if `start + n` is below it. */
  lemma {:induction false} ModesPartAtTheLimit(cfg: Config, start: u32, header: Header, inputs: seq<Input>)
    ensures var cp := InitialCheckpoint(cfg, start, header);
            var long, short := PrepareRun(cfg, cp, inputs), PrepareRun(cfg, ForgetHistory(cp), inputs);
            && (long.Ok? <==> short.Ok? && HistoryHasRoom(start, |inputs|))
            && (HistoryHasRoom(start, |inputs|) ==> short == ForgetOutcome(long))
    decreases |inputs|
  {
    if inputs != [] {
      var cp, earlier, last := InitialCheckpoint(cfg, start, header), inputs[..|inputs| - 1], inputs[|inputs| - 1];
      ModesPartAtTheLimit(cfg, start, header, earlier);
      var before := PrepareRun(cfg, cp, earlier);
      if before.Ok? {
        BeforeLast(cfg, start, header, earlier);
        StepModes(cfg, start, |inputs|, before.value, BlocksSeen(cfg, start, earlier), last);
      }
    }
  }
}
