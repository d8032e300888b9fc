/** The pipeline service: start-up with journal reconciliation, the ordered commit, and the poll
    that plans ahead within a window. Every durable effect is recorded as an event of the commit
    protocol, so whatever the methods do, crashes included, is a run of that protocol. */
module BlockPipelineService {
  import opened Wrappers
  import opened MachineInts
  import opened MerklePaths
  import opened Checkpoints
  import opened CommitProtocol
  import opened CommitSafety
  import opened PipelineRuns
  import opened ServiceRuns
  import DepositSafety

  datatype ProofState = Pending | Ready | Failed

  datatype OrderedAction = Idle | Wait(height: nat) | Commit(height: nat) | Fail(height: nat)

  /** The next commit is the one after the committed height, or none. */
  function OrderedProofAction(committed: u32, inflight: map<nat, ProofState>): (action: OrderedAction)
    ensures action.Commit? ==>
              action.height == committed + 1 && action.height in inflight && inflight[action.height] == Ready
    ensures action.Wait? ==>
              action.height == committed + 1 && action.height in inflight && inflight[action.height] == Pending
    ensures action.Fail? ==>
              action.height == committed + 1 && action.height in inflight && inflight[action.height] == Failed
    ensures action.Idle? <==> committed == U32_MAX || committed + 1 !in inflight
  {
    if committed == U32_MAX then Idle
    else if committed + 1 !in inflight then Idle
    else
      match inflight[committed + 1]
      case Pending => Wait(committed + 1)
      case Ready => Commit(committed + 1)
      case Failed => Fail(committed + 1)
  }

  /** A prepared height; `parent` is the fingerprint of the checkpoint it was prepared from. */
  datatype PreparedTransition = PreparedTransition(height: u32, next: Checkpoint, commitment: Commitment,
      parent: Digest)

  datatype PipelineError =
    | StartRefused(refusal: StartRefusal) | Interrupted
    | CheckpointAtLimit | NotNextHeight | ParentMismatch | ProofRejected
    | TipUnavailable | BlockUnavailable | Preparation(cause: CheckpointError) | SubmissionRefused
    | WatchdogExpired | ProofFailed(height: nat)

  /** Why a start is refused before it has any effect. */
  datatype StartRefusal =
    | InvalidConfiguration | WrongOperator | WrongCustodian | WrongMint | NoInitialCheckpoint(cause: CheckpointError)

  /** What a start finds: a refusal of its configuration or of the accounts on chain, and the initial
      checkpoint it would derive. */
  datatype StartEnvironment = StartEnvironment(refusal: Option<StartRefusal>,
      derived: Result<Checkpoint, CheckpointError>)

  /** What the outside world answers during one poll. */
  datatype Environment = Environment(
    electrsTip: Option<u32>,
    inputs: nat -> Option<Input>,
    acceptsJob: nat -> bool,
    proofs: nat -> ProofState,
    proofBinds: nat -> bool)

  /** What the proof of each planned height does during a poll. */
  function ProofStates(env: Environment, committed: nat, planned: nat): map<nat, ProofState> {
    map h: nat | committed < h <= planned :: env.proofs(h)
  }

  lemma {:induction false} ActionForWindow(env: Environment, committed: u32, planned: u32)
    ensures OrderedProofAction(committed, ProofStates(env, committed, planned))
            == if planned <= committed then Idle
               else match env.proofs(committed + 1)
                    case Pending => Wait(committed + 1)
                    case Ready => Commit(committed + 1)
                    case Failed => Fail(committed + 1)
  {
    assert planned > committed ==> committed + 1 in ProofStates(env, committed, planned);
  }

  /** The next height's proof is ready and its public values bind the transition. */
  predicate MayCommit(env: Environment, committed: u32, planned: u32) {
    var action := OrderedProofAction(committed, ProofStates(env, committed, planned));
    action.Commit? && env.proofBinds(action.height)
  }

  /** Why a poll that has planned ahead stops before any effect. */
  function Refusal(env: Environment, committed: u32, planned: u32): (refusal: Option<PipelineError>)
    ensures refusal.Some? ==>
              || refusal.value.CheckpointAtLimit? || refusal.value.WatchdogExpired?
              || refusal.value.ProofFailed? || refusal.value.ProofRejected?
  {
    match OrderedProofAction(committed, ProofStates(env, committed, planned))
    case Idle => if committed == U32_MAX then Some(CheckpointAtLimit) else None
    case Wait(_) => Some(WatchdogExpired)
    case Fail(h) => Some(ProofFailed(h))
    case Commit(h) => if env.proofBinds(h) then None else Some(ProofRejected)
  }

  /** A verdict by the proof of the next height alone. */
  predicate ByNextProof(env: Environment, committed: u32, planned: u32, may: bool, refusal: Option<PipelineError>) {
    if planned <= committed then
      !may && refusal == if committed == U32_MAX then Some(CheckpointAtLimit) else None
    else
      && (may <==> env.proofs(committed + 1) == Ready && env.proofBinds(committed + 1))
      && refusal == match env.proofs(committed + 1)
                    case Pending => Some(WatchdogExpired)
                    case Failed => Some(ProofFailed(committed + 1))
                    case Ready => if env.proofBinds(committed + 1) then None else Some(ProofRejected)
  }

  /** With exactly the heights up to the planned one in flight, only the next one matters. */
  lemma {:induction false} VerdictForWindow(env: Environment, committed: u32, planned: u32)
    ensures ByNextProof(env, committed, planned, MayCommit(env, committed, planned), Refusal(env, committed, planned))
  {
    ActionForWindow(env, committed, planned);
  }

  /** Above `from` and up to `to` there is a block at every height, and its proof job was accepted. */
  ghost predicate JobsAccepted(env: Environment, from: nat, to: nat) {
    forall h: nat {:trigger env.acceptsJob(h)} {:trigger env.inputs(h)} :: from < h <= to ==>
        env.inputs(h).Some? && env.acceptsJob(h)
  }

  lemma {:induction false} OneAccepted(env: Environment, from: nat, height: nat)
    requires height == from + 1 && env.inputs(height).Some? && env.acceptsJob(height)
    ensures JobsAccepted(env, from, height)
  {
  }

  lemma {:induction false} MoreAccepted(env: Environment, from: nat, at: nat, to: nat)
    requires JobsAccepted(env, from, at) && JobsAccepted(env, at, to)
    ensures JobsAccepted(env, from, to)
  {
  }

  /** Every height that has newly been planned has its confirmations, and its proof job was
      accepted. */
  ghost predicate NewlyPlannedOk(cfg: Config, env: Environment, tip: nat, from: nat, to: nat) {
    forall h: nat {:trigger env.acceptsJob(h)} {:trigger env.inputs(h)} :: from < h <= to ==>
      h + cfg.confirmations <= tip && env.inputs(h).Some? && env.acceptsJob(h)
  }

  /** What the finalized tip means in terms of the tip. */
  lemma {:induction false} TipMeaning(cfg: Config, env: Environment, tip: u32, from: nat, to: nat, limit: nat)
    requires to <= Max(from, FinalizedTip(cfg, tip)) && JobsAccepted(env, from, to)
    ensures NewlyPlannedOk(cfg, env, tip, from, to)
    ensures to < Min(limit, FinalizedTip(cfg, tip)) <==> to < limit && to + cfg.confirmations < tip
  {
  }

  /** What planning the height after `base` gives, or the first thing that fails. */
  function PlanOf(cfg: Config, fingerprint: Checkpoint -> Digest, env: Environment, base: Checkpoint)
    : (plan: Result<PreparedTransition, PipelineError>)
    ensures plan.Err? ==> plan.error.Preparation? || plan.error.BlockUnavailable? || plan.error.SubmissionRefused?
  {
    var height := NextHeight(base);
    if height == None then Err(Preparation(HeightOverflow))
    else if env.inputs(height.value) == None then
      var checked := CheckAgainstState(cfg, base);
      Err(if checked.Err? then Preparation(checked.error) else BlockUnavailable)
    else
      var prepared := PrepareNext(cfg, base, env.inputs(height.value).value);
      if prepared.Err? then Err(Preparation(prepared.error))
      else if !env.acceptsJob(height.value) then Err(SubmissionRefused)
      else Ok(PreparedTransition(height.value, prepared.value.0, prepared.value.1, fingerprint(base)))
  }

  /** What planning a height gives: a transition prepared from the block there and the checkpoint
      below, with that checkpoint's fingerprint, if there is a block, it can be prepared and its proof
      job is accepted; otherwise what is missing, the refusal of the old checkpoint coming first. */
  lemma {:induction false} PlanMeaning(
    cfg: Config, fingerprint: Checkpoint -> Digest, env: Environment, base: Checkpoint, height: u32)
    requires NextHeight(base) == Some(height)
    ensures var plan, input := PlanOf(cfg, fingerprint, env, base), env.inputs(height);
            if input == None then
              plan == Err(if CheckAgainstState(cfg, base).Err? then Preparation(CheckAgainstState(cfg, base).error)
                          else BlockUnavailable)
            else
              var prepared := PrepareNext(cfg, base, input.value);
              if prepared.Err? then plan == Err(Preparation(prepared.error))
              else if !env.acceptsJob(height) then plan == Err(SubmissionRefused)
              else
                && plan.Ok? && plan.value.height == height && plan.value.parent == fingerprint(base)
                && plan.value.next == prepared.value.0 && plan.value.commitment == prepared.value.1
  {
  }

  /** What is planned is prepared: for the height asked for, valid, and out of what is offered there. */
  lemma {:induction false} PlannedIsPrepared(
    cfg: Config, sys: System, base: Checkpoint, height: u32, input: Input, t: PreparedTransition)
    requires Serves(cfg, sys) && NextHeight(base) == Some(height) && sys.offers(height, input) && t.height == height
    requires Prepare(cfg, base, height, input) == Ok((t.next, t.commitment))
    ensures WellPrepared(sys, t, height) && sys.prepares(base, Prepared(t.next, t.commitment))
  {
    PreparedShape(cfg, base, height, input);
    NextIsPrepare(cfg, base, height, input);
    assert PreparesWith(cfg, base, Prepared(t.next, t.commitment), input);
    assert Prepares(cfg, sys, base, Prepared(t.next, t.commitment));
  }

  lemma {:induction false} PlanAgrees(
    cfg: Config, sys: System, fingerprint: Checkpoint -> Digest, env: Environment, cp: Checkpoint,
    height: nat)
    requires Holds(sys, env) && height == cp.height + 1 && DepositSafety.NextAgrees(cfg, sys, cp, height)
    ensures var plan := PlanOf(cfg, fingerprint, env, cp);
            plan.Err? && plan.error.Preparation? ==> !DepositSafety.Disagrees(plan.error.cause)
  {
    if cp.height < U32_MAX {
      DepositSafety.ValidationAgrees(cfg, cp);
      PlanMeaning(cfg, fingerprint, env, cp, height);
    }
  }

  // ---------- the window of planned heights ----------

  /** The checkpoint that height `h` was prepared from. */
  ghost function Base(committed: Checkpoint, inflight: map<nat, PreparedTransition>, h: nat): Checkpoint
    requires h == committed.height + 1 || (h > 0 && h - 1 in inflight)
  {
    if h == committed.height + 1 then committed else inflight[h - 1].next
  }

  ghost predicate WellPrepared(sys: System, t: PreparedTransition, h: nat) {
    t.height == h == t.next.height == t.next.header.tipHeight && sys.validates(t.next)
  }

  /** Height `h` in flight is what was prepared from the height before it: checkpoint, commitment
      and fingerprint. */
  ghost predicate Linked(sys: System, fingerprint: Checkpoint -> Digest, committed: Checkpoint,
      inflight: map<nat, PreparedTransition>, h: nat)
    requires h in inflight && (h == committed.height + 1 || (h > 0 && h - 1 in inflight))
  {
    var t, base := inflight[h], Base(committed, inflight, h);
    WellPrepared(sys, t, h) && t.parent == fingerprint(base) && sys.prepares(base, Prepared(t.next, t.commitment))
  }

  /** In flight are exactly the heights after the committed one and up to the planned one, at
      most a window of them, each prepared from the one before. */
  ghost predicate InWindow(sys: System, fingerprint: Checkpoint -> Digest, window: nat,
                           committed: Checkpoint, planned: Checkpoint, inflight: map<nat, PreparedTransition>)
  {
    && committed.height <= planned.height
    && |inflight| == planned.height - committed.height <= window
    && (forall h: nat {:trigger h in inflight} :: h in inflight <==> committed.height < h <= planned.height)
    && (forall h: nat {:trigger Linked(sys, fingerprint, committed, inflight, h)} ::
          committed.height < h <= planned.height ==> Linked(sys, fingerprint, committed, inflight, h))
    && planned == Base(committed, inflight, planned.height + 1)
  }

  lemma {:induction false} LinkStays(
    sys: System, fingerprint: Checkpoint -> Digest, committed: Checkpoint,
    inflight: map<nat, PreparedTransition>, top: nat, t: PreparedTransition, h: nat)
    requires committed.height < h < top && h in inflight && (h == committed.height + 1 || h - 1 in inflight)
    requires Linked(sys, fingerprint, committed, inflight, h)
    ensures Linked(sys, fingerprint, committed, inflight[top := t], h)
  {
  }

  lemma {:induction false} NewLink(
    sys: System, fingerprint: Checkpoint -> Digest, committed: Checkpoint, planned: Checkpoint,
    inflight: map<nat, PreparedTransition>, top: nat, t: PreparedTransition)
    requires committed.height < top && (top == committed.height + 1 || top - 1 in inflight)
    requires planned == Base(committed, inflight, top)
    requires WellPrepared(sys, t, top) && t.parent == fingerprint(planned)
    requires sys.prepares(planned, Prepared(t.next, t.commitment))
    ensures Linked(sys, fingerprint, committed, inflight[top := t], top)
  {
  }

  /** Planning one more height from the planned checkpoint keeps the window. */
  lemma {:induction false} WindowGrows(
    sys: System, fingerprint: Checkpoint -> Digest, window: nat,
    committed: Checkpoint, planned: Checkpoint, inflight: map<nat, PreparedTransition>, t: PreparedTransition)
    requires InWindow(sys, fingerprint, window, committed, planned, inflight) && |inflight| < window
    requires WellPrepared(sys, t, planned.height + 1) && t.parent == fingerprint(planned)
    requires sys.prepares(planned, Prepared(t.next, t.commitment))
    ensures InWindow(sys, fingerprint, window, committed, t.next, inflight[t.height := t])
  {
    var top := t.height;
    var grown := inflight[top := t];
    NewLink(sys, fingerprint, committed, planned, inflight, top, t);
    forall h: nat {:trigger Linked(sys, fingerprint, committed, grown, h)} | committed.height < h <= top
      ensures Linked(sys, fingerprint, committed, grown, h)
    {
      if h < top {
        assert Linked(sys, fingerprint, committed, inflight, h);
        LinkStays(sys, fingerprint, committed, inflight, top, t, h);
      }
    }
  }

  /** Committing the next height keeps it; that height passes the commit's checks. */
  lemma {:induction false} WindowAdvances(
    sys: System, fingerprint: Checkpoint -> Digest, window: nat,
    committed: Checkpoint, planned: Checkpoint, inflight: map<nat, PreparedTransition>)
    requires InWindow(sys, fingerprint, window, committed, planned, inflight) && committed.height + 1 in inflight
    ensures var t := inflight[committed.height + 1];
            && WellPrepared(sys, t, committed.height + 1) && t.parent == fingerprint(committed)
            && sys.prepares(committed, Prepared(t.next, t.commitment))
            && InWindow(sys, fingerprint, window, t.next, planned, inflight - {committed.height + 1})
  {
    assert Linked(sys, fingerprint, committed, inflight, committed.height + 1);
    var t, rest := inflight[committed.height + 1], inflight - {committed.height + 1};
    assert rest.Keys == inflight.Keys - {committed.height + 1};
    assert |rest| == |rest.Keys| == |inflight.Keys| - 1 == |inflight| - 1;
    forall h: nat {:trigger Linked(sys, fingerprint, t.next, rest, h)} | t.next.height < h <= planned.height
      ensures Linked(sys, fingerprint, t.next, rest, h)
    {
      assert Linked(sys, fingerprint, committed, inflight, h);
    }
  }

  lemma {:induction false} HeightIsPrepared(
    cfg: Config, sys: System, fingerprint: Checkpoint -> Digest, window: nat,
    committed: Checkpoint, planned: Checkpoint, inflight: map<nat, PreparedTransition>, h: nat)
    requires Serves(cfg, sys) && InWindow(sys, fingerprint, window, committed, planned, inflight)
    requires committed.height < h <= planned.height
    ensures h in inflight && (h == committed.height + 1 || h - 1 in inflight)
    ensures sys.prepares(Base(committed, inflight, h), Prepared(inflight[h].next, inflight[h].commitment))
    ensures Base(committed, inflight, h + 1) == inflight[h].next && Base(committed, inflight, h).height + 1 == h
  {
    assert Linked(sys, fingerprint, committed, inflight, h);
    if h > committed.height + 1 {
      assert Linked(sys, fingerprint, committed, inflight, h - 1);
    }
  }

  /** A window on top of a run of the pipeline is a longer run. */
  lemma {:induction false} WindowExtendsRun(
    cfg: Config, sys: System, fingerprint: Checkpoint -> Digest, window: nat,
    committed: Checkpoint, planned: Checkpoint, inflight: map<nat, PreparedTransition>,
    inputs: seq<Input>, finalized: seq<Commitment>, h: nat)
    returns (more: seq<Input>, moreFinalized: seq<Commitment>)
    requires Serves(cfg, sys) && InWindow(sys, fingerprint, window, committed, planned, inflight)
    requires committed.height <= h <= planned.height
    ensures inputs <= more && |more| == |inputs| + h - committed.height
    ensures Makes(cfg, sys, inputs, committed, finalized) && committed.height == sys.initial.height + |inputs| ==>
              Makes(cfg, sys, more, Base(committed, inflight, h + 1), moreFinalized)
  {
    if h == committed.height {
      more, moreFinalized := inputs, finalized;
    } else {
      more, moreFinalized :=
        WindowExtendsRun(cfg, sys, fingerprint, window, committed, planned, inflight, inputs, finalized, h - 1);
      HeightIsPrepared(cfg, sys, fingerprint, window, committed, planned, inflight, h);
      var p := Prepared(inflight[h].next, inflight[h].commitment);
      var input := OneMoreBlock(cfg, sys, more, Base(committed, inflight, h), moreFinalized, p);
      more, moreFinalized := more + [input], moreFinalized + [p.commitment];
    }
  }

  lemma {:induction false} RunningIsInSync(sys: System, w: World, cp: Checkpoint)
    requires Inv(sys, State(w, Running(cp)))
    ensures cp == sys.Committed(w) && cp.height == w.header.tipHeight
  {
  }

  /** The blocks behind a running process and those of its window make its planned checkpoint. */
  lemma {:induction false} WindowFollowsBlocks(
    cfg: Config, sys: System, fingerprint: Checkpoint -> Digest, window: nat,
    cp: Checkpoint, planned: Checkpoint, inflight: map<nat, PreparedTransition>, w: World, committed: seq<Input>)
    returns (inputs: seq<Input>, finalized: seq<Commitment>)
    requires Serves(cfg, sys) && InWindow(sys, fingerprint, window, cp, planned, inflight)
    requires cp == sys.Committed(w) && cp.height == w.header.tipHeight
    ensures committed <= inputs && |inputs| == |committed| + planned.height - cp.height
    ensures FollowsBlocks(cfg, sys, w, committed) && cp.height == sys.initial.height + |committed| ==>
              Makes(cfg, sys, inputs, planned, finalized)
  {
    var before := CommittedIsMade(cfg, sys, w, committed);
    inputs, finalized := WindowExtendsRun(
      cfg, sys, fingerprint, window, cp, planned, inflight, committed, before, planned.height);
  }

  /** The environment only holds blocks that are on offer. */
  ghost predicate Holds(sys: System, env: Environment) {
    forall h {:trigger env.inputs(h)} :: env.inputs(h).Some? ==> sys.offers(h, env.inputs(h).value)
  }

  /** The tracker has none of the first groups of the height the chain is at. */
  ghost predicate NoneOfFirst(w: World, groups: nat) {
    forall g: nat {:trigger (w.header.tipHeight, g) in w.claimed} :: g < groups ==>
        (w.header.tipHeight, g) !in w.claimed
  }

  /** When its update has been accepted, a commit's buffer is in place and unminted. */
  lemma {:induction false} AcceptedIsUnminted(sys: System, w: World, cp: Checkpoint, p: Prepared)
    requires Inv(sys, State(w, Committing(cp, p, Accepted)))
    ensures w.buffer.Some? && w.buffer.value.commitment == p.commitment && w.journalKey == Some(BuffersJournal(sys, p))
    ensures NoneOfFirst(w, sys.Groups(p.commitment))
  {
    assert NoneClaimed(w, w.header.tipHeight);
  }

  lemma {:induction false} OneMoreGroup(w: World, g: nat)
    ensures var height := w.header.tipHeight;
            && FirstGroups(height, g + 1) == FirstGroups(height, g) + {(height, g)}
            && (NoneOfFirst(w, g + 1) <==> NoneOfFirst(w, g) && (height, g) !in w.claimed)
  {
  }

  /** What earlier attempts have minted, the last one finds on the tracker. */
  lemma {:induction false} RetriesLeaveTraces(w: World, tracker: World, earlier: nat, groups: nat)
    requires tracker.header == w.header && earlier <= groups
    requires tracker.claimed == w.claimed + FirstGroups(w.header.tipHeight, earlier)
    ensures NoneOfFirst(tracker, groups) <==> NoneOfFirst(w, groups) && earlier == 0
  {
    if earlier > 0 {
      assert (w.header.tipHeight, 0) in FirstGroups(w.header.tipHeight, earlier);
      assert (tracker.header.tipHeight, 0) in tracker.claimed;
    } else {
      assert tracker.claimed == w.claimed;
    }
  }

  /** How the minting of a commit ends: the last attempt minted everything, it did but not all by
      itself, or the process was interrupted. */
  datatype MintOutcome = MintedAll | CountMismatch | MintInterrupted

  /** The commits that some events begin, in order. */
  ghost function BegunIn(events: seq<Event>): seq<Prepared> {
    if events == [] then []
    else
      var last := events[|events| - 1];
      BegunIn(events[..|events| - 1]) + if last.Begin? then [last.prepared] else []
  }

  /** Exactly one more commit has been begun, of a transition prepared from `cp0`. */
  ghost predicate BeginsOne(sys: System, cp0: Checkpoint, before: seq<Prepared>, after: seq<Prepared>) {
    exists p: Prepared :: sys.prepares(cp0, p) && after == before + [p]
  }

  /** From `w0` to `w` a commit has taken full effect, of a transition prepared from `cp0`. */
  ghost predicate CommitsPrepared(sys: System, cp0: Checkpoint, w0: World, cp: Checkpoint, w: World) {
    exists p: Prepared :: p.next == cp && sys.prepares(cp0, p) && CommitTookEffect(sys, w0, p, w)
  }

  class BlockPipeline {
    const sys: System
    const cfg: Config
    const window: nat
    const fingerprint: Checkpoint -> Digest

    /** Redis, the chain and the sender. */
    var world: World
    var checkpoint: Checkpoint
    var plannedCheckpoint: Checkpoint
    var inflight: map<nat, PreparedTransition>

    ghost var proc: Proc
    ghost var events: seq<Event>

    /** The service, not started yet, facing a fresh deployment. */
    constructor (sys: System, cfg: Config, window: nat, fingerprint: Checkpoint -> Digest)
      requires sys.Valid() && cfg.Valid() && window > 0 && Serves(cfg, sys)
      ensures this.sys == sys && this.cfg == cfg && this.window == window && this.fingerprint == fingerprint
      ensures Traced() && proc == Stopped && events == []
    {
      this.sys, this.cfg, this.window, this.fingerprint := sys, cfg, window, fingerprint;
      world, checkpoint, plannedCheckpoint, inflight := sys.Init().world, sys.initial, sys.initial, map[];
      proc, events := Stopped, [];
    }

    /** The durable effects so far are a run of the protocol. */
    ghost predicate Traced()
      reads this
    {
      && sys.Valid() && cfg.Valid() && window > 0 && Serves(cfg, sys)
      && Exec(sys, sys.Init(), events) == Some(State(world, proc))
    }

    /** The commits that have been begun, in order. */
    ghost function Begun(): seq<Prepared>
      reads this
    {
      BegunIn(events)
    }

    ghost predicate WindowOk()
      reads this
    {
      InWindow(sys, fingerprint, window, checkpoint, plannedCheckpoint, inflight)
    }

    ghost predicate Valid()
      reads this
    {
      Traced() && proc == Running(checkpoint) && WindowOk()
    }

    /** A running service has prepared some blocks: those up to the committed height are what the
        chain, the stored checkpoint and the mints follow, and the planned checkpoint is where they
        all lead. */
    lemma PlannedFollowsBlocks() returns (committed: seq<Input>, inputs: seq<Input>, finalized: seq<Commitment>)
      requires Valid() && cfg.confirmations >= 1
      ensures FollowsBlocks(cfg, sys, world, committed) && committed <= inputs
      ensures |committed| == checkpoint.height - sys.initial.height
      ensures |inputs| == plannedCheckpoint.height - sys.initial.height
      ensures Makes(cfg, sys, inputs, plannedCheckpoint, finalized)
    {
      committed := BlocksOfRun(cfg, sys, events, State(world, proc));
      ReachableInv(sys, events);
      RunningIsInSync(sys, world, checkpoint);
      inputs, finalized := WindowFollowsBlocks(
        cfg, sys, fingerprint, window, checkpoint, plannedCheckpoint, inflight, world, committed);
    }

    /** While the chain does not change, planning never finds that a finalized block disagrees with
        what was committed to. */
    lemma PlanFindsNoChange(env: Environment, b: DepositSafety.Bridge)
      requires Valid() && cfg.confirmations >= 1 && Holds(sys, env) && DepositSafety.PutsIn(cfg, b, sys)
      ensures var plan := PlanOf(cfg, fingerprint, env, plannedCheckpoint);
              plan.Err? && plan.error.Preparation? ==> !DepositSafety.Disagrees(plan.error.cause)
    {
      var _, inputs, finalized := PlannedFollowsBlocks();
      var height := plannedCheckpoint.height + 1;
      DepositSafety.UnchangedChainAgrees(cfg, sys, b, inputs, plannedCheckpoint, finalized, height);
      PlanAgrees(cfg, sys, fingerprint, env, plannedCheckpoint, height);
    }

    ghost method Record(before: State, e: Event)
      requires Exec(sys, sys.Init(), events) == Some(before) && Apply(sys, before, e) == Some(State(world, proc))
      modifies this`events
      ensures Exec(sys, sys.Init(), events) == Some(State(world, proc))
      ensures events == old(events) + [e]
      ensures Begun() == old(Begun()) + if e.Begin? then [e.prepared] else []
    {
      ExecSnoc(sys, sys.Init(), events, e);
      assert (events + [e])[..|events|] == events;
      events := events + [e];
    }

    // ---------- start ----------

    /** Mint one group, unless the on-chain tracker has it. The process may die before. */
    method MintUnclaimed(g: nat) returns (alive: bool, isNew: bool)
      requires Traced() && IsMinting(proc) && world.buffer.Some? && g < sys.Groups(world.buffer.value.commitment)
      modifies this`world, this`proc, this`events
      ensures Traced()
      ensures Begun() == old(Begun())
      ensures !alive ==> proc == Stopped
      ensures alive ==>
                && proc == old(proc) && isNew == ((world.header.tipHeight, g) !in old(world).claimed)
                && world == if isNew then AfterMint(old(world), g) else old(world)
    {
      if * {
        Die();
        return false, false;
      }
      var group: Group := (world.header.tipHeight, g);
      isNew := group !in world.claimed;
      if isNew {
        ghost var before := State(world, proc);
        world := world.(claimed := world.claimed + {group}, minted := world.minted + [group]);
        Record(before, MintGroup(g));
      }
      return true, isNew;
    }

    /** Mint the first groups of the buffer, all of them if nothing goes wrong, and count those
        that were minted now. */
    method ProcessRemainingGroups(groups: nat) returns (alive: bool, processed: nat)
      requires Traced() && IsMinting(proc) && world.buffer.Some?
      requires groups <= sys.Groups(world.buffer.value.commitment)
      modifies this`world, this`proc, this`events
      ensures Traced()
      ensures Begun() == old(Begun())
      ensures !alive ==> proc == Stopped
      ensures alive ==>
                && proc == old(proc)
                && world == old(world).(claimed := world.claimed, minted := world.minted)
                && world.claimed == old(world).claimed + FirstGroups(old(world).header.tipHeight, groups)
                && |world.minted| == |old(world).minted| + processed
                && (processed == groups <==> NoneOfFirst(old(world), groups))
    {
      processed := 0;
      ghost var height, claimed0 := world.header.tipHeight, world.claimed;
      for g := 0 to groups
        invariant Traced() && proc == old(proc) && Begun() == old(Begun())
        invariant world == old(world).(claimed := world.claimed, minted := world.minted)
        invariant world.claimed == claimed0 + FirstGroups(height, g)
        invariant |world.minted| == |old(world).minted| + processed
        invariant processed <= g && (processed == g <==> NoneOfFirst(old(world), g))
      {
        OneMoreGroup(old(world), g);
        var isNew;
        alive, isNew := MintUnclaimed(g);
        if !alive {
          return false, processed;
        }
        processed := processed + if isNew then 1 else 0;
      }
      return true, processed;
    }

    method Die()
      requires Traced()
      modifies this`proc, this`events
      ensures Traced() && proc == Stopped && Begun() == old(Begun())
    {
      ghost var before := State(world, proc);
      proc := Stopped;
      Record(before, Crash);
    }

    /** Store the recovered checkpoint and drop the journal. */
    method PromoteJournalCheckpoint(next: Checkpoint, ghost snapshot: Header) returns (r: Result<(), PipelineError>)
      requires Traced() && proc == CommitProtocol.Promoting(snapshot, next)
      modifies this`world, this`proc, this`events
      ensures Traced()
      ensures Begun() == old(Begun())
      ensures r.Err? ==> proc == Stopped
      ensures r.Ok? ==> proc == Running(next) && world == old(world).(checkpointKey := Some(next), journalKey := None)
    {
      ReachableInv(sys, events);
      if * {
        Die();
        return Err(Interrupted);
      }
      ghost var before := State(world, proc);
      world := world.(checkpointKey := Some(next));
      proc := Clearing(snapshot, next);
      Record(before, Advance);
      if * {
        Die();
        return Err(Interrupted);
      }
      before := State(world, proc);
      world := world.(journalKey := None);
      proc := Running(next);
      ReachableInv(sys, events);
      Record(before, Advance);
      return Ok(());
    }

    /** Mint what is left of the height in the journal; its checkpoint is promoted next. */
    method CompleteMints(ghost snapshot: Header, ghost journal: Journal, commitment: Commitment) returns (alive: bool)
      requires Traced() && proc == Completing(snapshot, journal) && journal.commitment == Some(commitment)
      modifies this`world, this`proc, this`events
      ensures Traced()
      ensures Begun() == old(Begun())
      ensures !alive ==> proc == Stopped
      ensures alive ==>
                && proc == CommitProtocol.Promoting(snapshot, journal.checkpoint)
                && world == old(world).(claimed := world.claimed, minted := world.minted)
    {
      ReachableInv(sys, events);
      var minted, _ := ProcessRemainingGroups(sys.Groups(commitment));
      alive := minted;
      if alive {
        ghost var before := State(world, proc);
        proc := CommitProtocol.Promoting(snapshot, journal.checkpoint);
        Record(before, Advance);
      }
    }

    /** The chain is ahead of the stored checkpoint: finish its mints if need be, then promote. */
    method RecoverFromJournal(snapshot: Header, stored: Checkpoint, journal: Journal)
        returns (r: Result<(), PipelineError>)
      requires Traced() && proc == Booting(snapshot) && stored == sys.Committed(world)
      requires !MatchesChain(stored, snapshot) && world.journalKey == Some(journal)
      modifies this`world, this`proc, this`events
      ensures Traced()
      ensures Begun() == old(Begun())
      ensures r.Err? ==> proc == Stopped
      ensures r.Ok? ==> proc == Running(journal.checkpoint)
      ensures r.Ok? ==>
                world == old(world).(checkpointKey := Some(journal.checkpoint), journalKey := None,
                                     claimed := world.claimed, minted := world.minted)
    {
      ReachableInv(sys, events);
      ghost var before := State(world, proc);
      var plan := PlanJournalRecovery(stored, snapshot, Some(journal));
      if plan.CompleteMint? {
        proc := Completing(snapshot, journal);
        Record(before, Reconcile);
        var alive := CompleteMints(snapshot, journal, plan.commitment);
        if !alive {
          return Err(Interrupted);
        }
      } else if plan.PromoteCheckpoint? {
        proc := CommitProtocol.Promoting(snapshot, journal.checkpoint);
        Record(before, Reconcile);
      } else {
        assert false;   // the source fails closed here
      }
      r := PromoteJournalCheckpoint(journal.checkpoint, snapshot);
    }

    /** Compare the stored checkpoint with the on-chain header and settle the journal. Only an
        interruption stops it: the plan to fail closed is never reached. */
    method ReconcileCheckpointJournal(snapshot: Header) returns (r: Result<Checkpoint, PipelineError>)
      requires Traced() && proc == Booting(snapshot)
      modifies this`world, this`proc, this`events
      ensures Traced()
      ensures Begun() == old(Begun())
      ensures r.Err? ==> r.error == Interrupted && proc == Stopped
      ensures r.Ok? ==> proc == Running(r.value) && world.header == old(world).header
      ensures r.Ok? ==>
                var ahead := !MatchesChain(sys.Committed(old(world)), snapshot);
                && (ahead ==> old(world).journalKey.Some?)
                && (ahead ==> r.value == old(world).journalKey.value.checkpoint)
                && (!ahead ==> r.value == sys.Committed(old(world)) && world == old(world).(journalKey := None))
    {
      ReachableInv(sys, events);
      var stored := sys.Committed(world);
      if MatchesChain(stored, snapshot) {
        ghost var before := State(world, proc);
        world := world.(journalKey := None);
        proc := Running(stored);
        Record(before, Reconcile);
        return Ok(stored);
      }
      if world.journalKey == None || ValidateCheckpoint(cfg, world.journalKey.value.checkpoint).Err? {
        assert false;   // the source fails closed here
      }
      var journal := world.journalKey.value;
      var recovered := RecoverFromJournal(snapshot, stored, journal);
      if recovered.Err? {
        return Err(Interrupted);
      }
      return Ok(journal.checkpoint);
    }

    /** A new process reads the on-chain header. An update that was left behind may have landed
        while no process was there; from here on it does not. */
    method Boot() returns (snapshot: Header)
      requires Traced() && proc == Stopped
      modifies this`world, this`proc, this`events
      ensures Traced() && proc == Booting(snapshot) && snapshot == world.header
      ensures Begun() == old(Begun())
      ensures
        || world == old(world).(outstanding := None)
        || (&& old(world).outstanding.Some?
            && world == Landed(old(world), old(world).outstanding.value).(outstanding := None))
    {
      ghost var before := State(world, proc);
      if * {
        if world.outstanding.Some? {
          world := Landed(world, world.outstanding.value);
          Record(before, Land);
        }
      }
      before := State(world, proc);
      snapshot := world.header;
      world := world.(outstanding := None);
      proc := Booting(snapshot);
      Record(before, CommitProtocol.Boot);
    }

    /** Start, or restart: check the configuration and the accounts on chain, read the header,
        reconcile, and run from the result: the stored checkpoint if it matches the chain, the
        journal's otherwise. */
    method Initialize(env: StartEnvironment) returns (r: Result<(), PipelineError>)
      requires Traced() && proc == Stopped
      requires env.derived.Ok? ==> env.derived.value == sys.initial
      modifies this
      ensures Traced()
      ensures Begun() == old(Begun())
      ensures env.refusal.Some? ==> r == Err(StartRefused(env.refusal.value))
      ensures env.refusal == None && old(world).checkpointKey == None && env.derived.Err? ==>
                r == Err(StartRefused(NoInitialCheckpoint(env.derived.error)))
      ensures r.Err? ==> proc == Stopped
      ensures r.Err? && r.error != Interrupted ==>
                && world == old(world)
                && (env.refusal.Some? || (old(world).checkpointKey == None && env.derived.Err?))
      ensures r.Ok? ==> Valid() && checkpoint == plannedCheckpoint && inflight == map[]
      ensures r.Ok? ==>
                var stored := sys.Committed(old(world));
                if MatchesChain(stored, world.header) then checkpoint == stored
                else old(world).journalKey.Some? && checkpoint == old(world).journalKey.value.checkpoint
    {
      if env.refusal.Some? {
        return Err(StartRefused(env.refusal.value));
      }
      if world.checkpointKey == None && env.derived.Err? {
        return Err(StartRefused(NoInitialCheckpoint(env.derived.error)));
      }
      var snapshot := Boot();
      var reconciled := ReconcileCheckpointJournal(snapshot);
      if reconciled.Err? {
        return Err(reconciled.error);
      }
      checkpoint := reconciled.value;
      plannedCheckpoint := checkpoint;
      inflight := map[];
      return Ok(());
    }

    // ---------- commit ----------

    /** Journal the transition, upload its buffers, journal their addresses. */
    method StoreBuffers(p: Prepared) returns (alive: bool)
      requires Traced() && proc == Running(checkpoint)
      requires p.next.height == checkpoint.height + 1 == p.next.header.tipHeight && sys.validates(p.next)
      requires sys.prepares(checkpoint, p)
      modifies this`world, this`proc, this`events
      ensures Traced()
      ensures Begun() == old(Begun()) + [p]
      ensures !alive ==> proc == Stopped
      ensures alive ==>
                && proc == Committing(checkpoint, p, BuffersRecorded)
                && world == old(world).(journalKey := Some(Journal(p.next, Some(sys.buffers), Some(p.commitment),
                    None, None)),
                    buffer := Some(Upload(p.next.height, p.commitment)))
    {
      ghost var before := State(world, proc);
      world := world.(journalKey := Some(Journal(p.next, None, Some(p.commitment), None, None)));
      proc := Committing(checkpoint, p, Journaled);
      Record(before, Begin(p));
      if * {
        Die();
        return false;
      }
      before := State(world, proc);
      world := world.(buffer := Some(Upload(p.next.height, p.commitment)));
      proc := Committing(checkpoint, p, Uploaded);
      Record(before, Advance);
      if * {
        Die();
        return false;
      }
      before := State(world, proc);
      world := world.(journalKey := Some(Journal(p.next, Some(sys.buffers), Some(p.commitment), None, None)));
      proc := Committing(checkpoint, p, BuffersRecorded);
      Record(before, Advance);
      return true;
    }

    /** Submit the block update and wait for the answer. It may land or not; without an answer
        the process stops. What has not landed by then may still do so before the next start. */
    method SubmitBlockUpdate(p: Prepared) returns (alive: bool)
      requires Traced() && proc == Committing(checkpoint, p, BuffersRecorded)
      modifies this`world, this`proc, this`events
      ensures Traced()
      ensures Begun() == old(Begun())
      ensures !alive ==> proc == Stopped
      ensures alive ==>
                && proc == Committing(checkpoint, p, Accepted)
                && world == old(world).(header := p.next.header,
                    authorised := old(world).authorised[p.next.height := p.commitment])
    {
      ReachableInv(sys, events);
      ghost var before := State(world, proc);
      world := world.(outstanding := Some(Update(checkpoint.header, p.next.header)));
      proc := Committing(checkpoint, p, Submitted);
      Record(before, Advance);
      if * {
        Die();
        return false;
      }
      before := State(world, proc);
      world := Landed(world, world.outstanding.value);
      Record(before, Land);
      if * {
        Die();
        return false;
      }
      before := State(world, proc);
      proc := Committing(checkpoint, p, Accepted);
      Record(before, Advance);
      return true;
    }

    /** Journal the signature, then process the mints. Unless it is interrupted it gets through
        exactly if none of the attempts that a network error ended had minted anything: a mint call
        that made progress before such an error can only stop the process. */
    method ProcessMints(p: Prepared) returns (outcome: MintOutcome, ghost earlier: nat)
      requires Traced() && proc == Committing(checkpoint, p, Accepted)
      modifies this`world, this`proc, this`events
      ensures Traced()
      ensures Begun() == old(Begun())
      ensures outcome != MintedAll ==> proc == Stopped
      ensures outcome != MintInterrupted ==>
              earlier <= sys.Groups(p.commitment) && (outcome == MintedAll <==> earlier == 0)
      ensures outcome == MintedAll ==>
                && proc == Committing(checkpoint, p, CommitProtocol.Minted)
                && world == old(world).(journalKey := Some(SignedJournal(sys, p)), claimed := world.claimed,
                    minted := world.minted)
                && world.claimed == old(world).claimed
                    + FirstGroups(old(world).header.tipHeight, sys.Groups(p.commitment))
    {
      RecordSignature(p);
      ghost var tracker;
      outcome, earlier, tracker := MintAll(sys.Groups(p.commitment));
      if outcome == MintedAll {
        ghost var before := State(world, proc);
        proc := Committing(checkpoint, p, CommitProtocol.Minted);
        Record(before, Advance);
      }
    }

    /** The journal gets the signature. No mint of this height has taken place yet. */
    method RecordSignature(p: Prepared)
      requires Traced() && proc == Committing(checkpoint, p, Accepted)
      modifies this`world, this`proc, this`events
      ensures Traced() && proc == Committing(checkpoint, p, SignatureRecorded)
      ensures Begun() == old(Begun())
      ensures world == old(world).(journalKey :=
                Some(Journal(p.next, Some(sys.buffers), Some(p.commitment), Some(p.next.height), None)))
      ensures world.buffer.Some? && world.buffer.value.commitment == p.commitment
      ensures NoneOfFirst(world, sys.Groups(p.commitment))
    {
      ReachableInv(sys, events);
      AcceptedIsUnminted(sys, world, checkpoint, p);
      ghost var before := State(world, proc);
      world := world.(journalKey :=
        Some(Journal(p.next, Some(sys.buffers), Some(p.commitment), Some(p.next.height), None)));
      proc := Committing(checkpoint, p, SignatureRecorded);
      Record(before, Advance);
    }

    /** The mint call with its retries, and the comparison of what its last attempt has minted with
        what was expected. Attempts that failed have minted the first `earlier` groups; `tracker` is
        the world as the last attempt found it. That attempt, unless interrupted, gets through
        exactly if the on-chain tracker then had none of the height's groups. */
    method MintAll(groups: nat) returns (outcome: MintOutcome, ghost earlier: nat, ghost tracker: World)
      requires Traced() && IsMinting(proc) && world.buffer.Some?
      requires groups == sys.Groups(world.buffer.value.commitment)
      modifies this`world, this`proc, this`events
      ensures Traced()
      ensures Begun() == old(Begun())
      ensures outcome != MintedAll ==> proc == Stopped
      ensures outcome != MintInterrupted ==>
                && earlier <= groups
                && tracker == old(world).(claimed := tracker.claimed, minted := tracker.minted)
                && tracker.claimed == old(world).claimed + FirstGroups(old(world).header.tipHeight, earlier)
                && (outcome == MintedAll <==> NoneOfFirst(tracker, groups))
                && (outcome == MintedAll <==> NoneOfFirst(old(world), groups) && earlier == 0)
                && world == old(world).(claimed := world.claimed, minted := world.minted)
                && world.claimed == old(world).claimed + FirstGroups(old(world).header.tipHeight, groups)
      ensures outcome == MintedAll ==> proc == old(proc)
    {
      var failed: nat := *;   // groups minted by attempts that failed
      if failed > groups {
        failed := 0;
      }
      earlier, tracker := failed, world;
      var alive, processed := ProcessRemainingGroups(failed);
      if !alive {
        return MintInterrupted, earlier, tracker;
      }
      tracker := world;
      alive, processed := ProcessRemainingGroups(groups);
      if !alive {
        return MintInterrupted, earlier, tracker;
      }
      assert FirstGroups(world.header.tipHeight, failed) <= FirstGroups(world.header.tipHeight, groups);
      RetriesLeaveTraces(old(world), tracker, failed, groups);
      if processed != groups {
        Die();
        return CountMismatch, earlier, tracker;
      }
      return MintedAll, earlier, tracker;
    }

    /** Journal the completion of the mints. */
    method RecordProgress(p: Prepared) returns (alive: bool)
      requires Traced() && proc == Committing(checkpoint, p, CommitProtocol.Minted)
      modifies this`world, this`proc, this`events
      ensures Traced()
      ensures Begun() == old(Begun())
      ensures !alive ==> proc == Stopped
      ensures alive ==>
                && proc == Committing(checkpoint, p, ProgressRecorded)
                && world == old(world).(journalKey := Some(Journal(p.next, Some(sys.buffers), Some(p.commitment),
                    Some(p.next.height), Some(sys.Groups(p.commitment)))))
    {
      if * {
        Die();
        return false;
      }
      ghost var before := State(world, proc);
      world := world.(journalKey := Some(Journal(p.next, Some(sys.buffers), Some(p.commitment), Some(p.next.height),
          Some(sys.Groups(p.commitment)))));
      proc := Committing(checkpoint, p, ProgressRecorded);
      Record(before, Advance);
      return true;
    }

    /** Make the next checkpoint the committed one, in memory and in Redis, and drop the journal. */
    method PromoteNext(p: Prepared) returns (alive: bool)
      requires Traced() && proc == Committing(checkpoint, p, ProgressRecorded)
      modifies this`world, this`checkpoint, this`proc, this`events
      ensures Traced() && checkpoint == p.next
      ensures Begun() == old(Begun())
      ensures !alive ==> proc == Stopped
      ensures alive ==>
                && proc == Running(p.next)
                && world == old(world).(checkpointKey := Some(p.next), journalKey := None)
    {
      ghost var base := checkpoint;
      checkpoint := p.next;
      if * {
        Die();
        return false;
      }
      ghost var before := State(world, proc);
      world := world.(checkpointKey := Some(checkpoint));
      proc := Committing(base, p, Promoted);
      Record(before, Advance);
      if * {
        Die();
        return false;
      }
      before := State(world, proc);
      world := world.(journalKey := None);
      proc := Running(p.next);
      Record(before, Advance);
      return true;
    }

    /** Commit a proven transition: it must be the next height, prepared from the committed
        checkpoint, with public values that bind it. Success leaves exactly the world of a
        completed commit; a refusal leaves the world alone. */
    method CommitPrepared(t: PreparedTransition, proofBinds: bool) returns (r: Result<(), PipelineError>)
      requires Traced() && proc == Running(checkpoint)
      requires t.next.header.tipHeight == t.next.height && sys.validates(t.next)
      requires t.parent == fingerprint(checkpoint) ==> sys.prepares(checkpoint, Prepared(t.next, t.commitment))
      modifies this`world, this`checkpoint, this`proc, this`events
      ensures Traced()
      ensures Begun() == old(Begun())
                         + if r.Ok? || r.error == Interrupted then [Prepared(t.next, t.commitment)] else []
      ensures r.Ok? ==>
                && proc == Running(checkpoint) && checkpoint == t.next
                && CommitTookEffect(sys, old(world), Prepared(t.next, t.commitment), world)
      ensures r.Err? ==> proc == Stopped && (checkpoint == old(checkpoint) || checkpoint == t.next)
      ensures r == Err(CheckpointAtLimit) <==> old(checkpoint).height == U32_MAX
      ensures r == Err(NotNextHeight) <==>
                old(checkpoint).height < U32_MAX && !(t.height == t.next.height == old(checkpoint).height + 1)
      ensures r == Err(ParentMismatch) <==>
                && old(checkpoint).height < U32_MAX && t.height == t.next.height == old(checkpoint).height + 1
                && t.parent != fingerprint(old(checkpoint))
      ensures r == Err(ProofRejected) <==>
                && old(checkpoint).height < U32_MAX && t.height == t.next.height == old(checkpoint).height + 1
                && t.parent == fingerprint(old(checkpoint)) && !proofBinds
      ensures r.Err? ==> r.error in {CheckpointAtLimit, NotNextHeight, ParentMismatch, ProofRejected, Interrupted}
      ensures r.Err? && r.error != Interrupted ==> world == old(world) && checkpoint == old(checkpoint)
    {
      r := CheckTransition(t, proofBinds);
      if r.Err? {
        Die();
        return;
      }
      var p := Prepared(t.next, t.commitment);
      ReachableInv(sys, events);
      var alive := StoreBuffers(p);
      if alive {
        alive := SubmitBlockUpdate(p);
      }
      if alive {
        var outcome, _ := ProcessMints(p);
        alive := outcome == MintedAll;
      }
      if alive {
        alive := RecordProgress(p);
      }
      if alive {
        alive := PromoteNext(p);
      }
      r := if alive then Ok(()) else Err(Interrupted);
    }

    /** The checks before the first effect of a commit. */
    method CheckTransition(t: PreparedTransition, proofBinds: bool) returns (r: Result<(), PipelineError>)
      ensures r == if checkpoint.height == U32_MAX then Err(CheckpointAtLimit)
                   else if !(t.height == t.next.height == checkpoint.height + 1) then Err(NotNextHeight)
                   else if t.parent != fingerprint(checkpoint) then Err(ParentMismatch)
                   else if !proofBinds then Err(ProofRejected)
                   else Ok(())
    {
      if checkpoint.height == U32_MAX {
        return Err(CheckpointAtLimit);
      }
      if t.height != checkpoint.height + 1 || t.next.height != checkpoint.height + 1 {
        return Err(NotNextHeight);
      }
      if t.parent != fingerprint(checkpoint) {
        return Err(ParentMismatch);
      }
      if !proofBinds {
        return Err(ProofRejected);
      }
      return Ok(());
    }

    // ---------- poll ----------

    /** Prepare the next height and submit its proof job. */
    method PrepareAndSubmit(env: Environment) returns (r: Result<PreparedTransition, PipelineError>)
      requires Traced() && plannedCheckpoint.height < U32_MAX && Holds(sys, env)
      ensures r == PlanOf(cfg, fingerprint, env, plannedCheckpoint)
      ensures r.Ok? ==>
                && WellPrepared(sys, r.value, plannedCheckpoint.height + 1)
                && r.value.parent == fingerprint(plannedCheckpoint)
                && sys.prepares(plannedCheckpoint, Prepared(r.value.next, r.value.commitment))
                && JobsAccepted(env, plannedCheckpoint.height, r.value.height)
    {
      var base, height := plannedCheckpoint, plannedCheckpoint.height + 1;
      var input := env.inputs(height);
      PlanMeaning(cfg, fingerprint, env, base, height);
      if input == None {
        var checked := CheckOldCheckpoint(cfg, base);   // the source checks it before it asks for the block
        return Err(if checked.Err? then Preparation(checked.error) else BlockUnavailable);
      }
      var prepared := PrepareHeight(cfg, base, height, input.value);
      NextIsPrepare(cfg, base, height, input.value);
      if prepared.Err? {
        return Err(Preparation(prepared.error));
      }
      if !env.acceptsJob(height) {
        return Err(SubmissionRefused);
      }
      var t := PreparedTransition(height, prepared.value.0, prepared.value.1, fingerprint(base));
      PlannedIsPrepared(cfg, sys, base, height, input.value, t);
      OneAccepted(env, base.height, height);
      return Ok(t);
    }

    /** Plan the next height: what was prepared goes in flight, at a height that is not there yet. */
    method PlanNext(env: Environment) returns (r: Result<(), PipelineError>)
      requires Valid() && |inflight| < window && plannedCheckpoint.height < U32_MAX && Holds(sys, env)
      modifies this`plannedCheckpoint, this`inflight
      ensures WindowOk()
      ensures r.Ok? ==> plannedCheckpoint.height == old(plannedCheckpoint).height + 1
      ensures r.Ok? ==> JobsAccepted(env, old(plannedCheckpoint).height, plannedCheckpoint.height)
      ensures var plan := PlanOf(cfg, fingerprint, env, old(plannedCheckpoint));
              if plan.Err? then
                r == Err(plan.error) && plannedCheckpoint == old(plannedCheckpoint) && inflight == old(inflight)
              else
                && r.Ok? && plan.value.height !in old(inflight)
                && inflight == old(inflight)[plan.value.height := plan.value] && plannedCheckpoint == plan.value.next
    {
      var prepared := PrepareAndSubmit(env);
      if prepared.Err? {
        return Err(prepared.error);
      }
      PutInFlight(prepared.value);
      assert plannedCheckpoint.height == prepared.value.height;
      return Ok(());
    }

    /** A planned height is one more in flight, and the next to plan from. */
    method PutInFlight(t: PreparedTransition)
      requires WindowOk() && |inflight| < window && WellPrepared(sys, t, plannedCheckpoint.height + 1)
      requires t.parent == fingerprint(plannedCheckpoint)
      requires sys.prepares(plannedCheckpoint, Prepared(t.next, t.commitment))
      modifies this`plannedCheckpoint, this`inflight
      ensures WindowOk() && plannedCheckpoint == t.next
      ensures t.height !in old(inflight) && inflight == old(inflight)[t.height := t]
    {
      WindowGrows(sys, fingerprint, window, checkpoint, plannedCheckpoint, inflight, t);
      assert t.height !in inflight;   // so the source's duplicate check cannot fire
      plannedCheckpoint := t.next;
      inflight := inflight[t.height := t];
    }

    /** Plan ahead until the window is full or the finalized tip is reached; never past it. It fails
        exactly if it stops before that, and with what planning the next height then gives. */
    method PlanAhead(env: Environment, finalizedTip: u32) returns (r: Result<bool, PipelineError>)
      requires Valid() && Holds(sys, env)
      modifies this`plannedCheckpoint, this`inflight
      ensures Valid()
      ensures old(plannedCheckpoint).height <= plannedCheckpoint.height
              <= Max(old(plannedCheckpoint).height, finalizedTip)
      ensures r.Err? <==> plannedCheckpoint.height < Min(checkpoint.height + window, finalizedTip)
      ensures r.Err? ==> PlanOf(cfg, fingerprint, env, plannedCheckpoint) == Err(r.error)
      ensures r.Ok? ==> (r.value <==> plannedCheckpoint.height > old(plannedCheckpoint).height)
      ensures JobsAccepted(env, old(plannedCheckpoint).height, plannedCheckpoint.height)
    {
      var didWork := false;
      while |inflight| < window && plannedCheckpoint.height < finalizedTip
        invariant Valid()
        invariant old(plannedCheckpoint).height <= plannedCheckpoint.height
                  <= Max(old(plannedCheckpoint).height, finalizedTip)
        invariant didWork <==> plannedCheckpoint.height > old(plannedCheckpoint).height
        invariant JobsAccepted(env, old(plannedCheckpoint).height, plannedCheckpoint.height)
        decreases window - |inflight|
      {
        ghost var at := plannedCheckpoint.height;
        var planned := PlanNext(env);
        if planned.Err? {
          return Err(planned.error);
        }
        MoreAccepted(env, old(plannedCheckpoint).height, at, plannedCheckpoint.height);
        didWork := true;
      }
      return Ok(didWork);
    }

    /** One poll: plan ahead while the window and the finalized tip allow it, then commit the next
        height if it is in flight. Each failure has its exact condition. A poll has an effect only
        if the ordered action is to commit and the proof binds, never past a missing or failed
        height, also when it is interrupted; the height and parent checks of the commit never fire;
        a successful poll leaves the window invariant; and nothing beyond the finalized tip is
        planned. */
    method PollOnce(env: Environment) returns (r: Result<bool, PipelineError>)
      requires Valid() && Holds(sys, env)
      modifies this
      ensures Traced()
      ensures if MayCommit(env, old(checkpoint).height, plannedCheckpoint.height) && (r.Ok? || r.error == Interrupted)
              then BeginsOne(sys, old(checkpoint), old(Begun()), Begun())
              else Begun() == old(Begun())
      ensures r.Ok? ==> Valid()
      ensures r == Err(TipUnavailable) <==> env.electrsTip == None
      ensures env.electrsTip.Some? ==>
                var tip := env.electrsTip.value;
                && NewlyPlannedOk(cfg, env, tip, old(plannedCheckpoint).height, plannedCheckpoint.height)
                && if plannedCheckpoint.height < old(checkpoint).height + window
                       && plannedCheckpoint.height + cfg.confirmations < tip then
                     Valid() && r.Err? && PlanOf(cfg, fingerprint, env, plannedCheckpoint) == Err(r.error)
                   else
                     var refusal := Refusal(env, old(checkpoint).height, plannedCheckpoint.height);
                     if refusal.Some? then r == Err(refusal.value) else r.Ok? || r == Err(Interrupted)
      ensures r.Err? && r.error != Interrupted ==> checkpoint == old(checkpoint) && world == old(world)
      ensures !MayCommit(env, old(checkpoint).height, plannedCheckpoint.height) ==>
                && r != Err(Interrupted) && checkpoint == old(checkpoint) && world == old(world)
                && (r.Ok? ==> (r.value <==> plannedCheckpoint.height > old(plannedCheckpoint).height))
      ensures r.Ok? && MayCommit(env, old(checkpoint).height, plannedCheckpoint.height) ==>
                && checkpoint.height == old(checkpoint).height + 1 && r.value
                && CommitsPrepared(sys, old(checkpoint), old(world), checkpoint, world)
    {
      if env.electrsTip == None {
        return Err(TipUnavailable);
      }
      r := PollWithTip(env, FinalizedTip(cfg, env.electrsTip.value));
      TipMeaning(cfg, env, env.electrsTip.value, old(plannedCheckpoint).height, plannedCheckpoint.height,
        old(checkpoint).height + window);
    }

    /** The poll, once the finalized tip is known. */
    method PollWithTip(env: Environment, tip: u32) returns (r: Result<bool, PipelineError>)
      requires Valid() && Holds(sys, env)
      modifies this
      ensures Traced()
      ensures if MayCommit(env, old(checkpoint).height, plannedCheckpoint.height) && (r.Ok? || r.error == Interrupted)
              then BeginsOne(sys, old(checkpoint), old(Begun()), Begun())
              else Begun() == old(Begun())
      ensures r.Ok? ==> Valid()
      ensures r != Err(TipUnavailable) && plannedCheckpoint.height <= Max(old(plannedCheckpoint).height, tip)
      ensures JobsAccepted(env, old(plannedCheckpoint).height, plannedCheckpoint.height)
      ensures if plannedCheckpoint.height < Min(old(checkpoint).height + window, tip) then
                Valid() && r.Err? && PlanOf(cfg, fingerprint, env, plannedCheckpoint) == Err(r.error)
              else
                var refusal := Refusal(env, old(checkpoint).height, plannedCheckpoint.height);
                if refusal.Some? then r == Err(refusal.value) else r.Ok? || r == Err(Interrupted)
      ensures r.Err? && r.error != Interrupted ==> checkpoint == old(checkpoint) && world == old(world)
      ensures !MayCommit(env, old(checkpoint).height, plannedCheckpoint.height) ==>
                && r != Err(Interrupted) && checkpoint == old(checkpoint) && world == old(world)
                && (r.Ok? ==> (r.value <==> plannedCheckpoint.height > old(plannedCheckpoint).height))
      ensures r.Ok? && MayCommit(env, old(checkpoint).height, plannedCheckpoint.height) ==>
                && checkpoint.height == old(checkpoint).height + 1 && r.value
                && CommitsPrepared(sys, old(checkpoint), old(world), checkpoint, world)
    {
      var planned := PlanAhead(env, tip);
      if planned.Err? {
        return planned;
      }
      r := CommitNext(env, planned.value);
    }

    /** The second half of a poll: commit the next height if it is in flight. */
    method CommitNext(env: Environment, didWork: bool) returns (r: Result<bool, PipelineError>)
      requires Valid()
      modifies this
      ensures Traced() && plannedCheckpoint == old(plannedCheckpoint)
      ensures if MayCommit(env, old(checkpoint).height, plannedCheckpoint.height) && (r.Ok? || r.error == Interrupted)
              then BeginsOne(sys, old(checkpoint), old(Begun()), Begun())
              else Begun() == old(Begun())
      ensures r.Ok? ==> Valid()
      ensures var refusal := Refusal(env, old(checkpoint).height, plannedCheckpoint.height);
              if refusal.Some? then r == Err(refusal.value) else r.Ok? || r == Err(Interrupted)
      ensures r.Err? && r.error != Interrupted ==> checkpoint == old(checkpoint) && world == old(world)
      ensures !MayCommit(env, old(checkpoint).height, plannedCheckpoint.height) ==>
                && r != Err(Interrupted) && (r.Ok? ==> r.value == didWork)
                && checkpoint == old(checkpoint) && world == old(world)
      ensures r.Ok? && MayCommit(env, old(checkpoint).height, plannedCheckpoint.height) ==>
                && checkpoint.height == old(checkpoint).height + 1 && r.value
                && CommitsPrepared(sys, old(checkpoint), old(world), checkpoint, world)
    {
      VerdictForWindow(env, checkpoint.height, plannedCheckpoint.height);
      r := CommitInFlight(env, didWork, MayCommit(env, checkpoint.height, plannedCheckpoint.height),
          Refusal(env, checkpoint.height, plannedCheckpoint.height));
    }

    /** The same with the verdict at hand. */
    method CommitInFlight(env: Environment, didWork: bool, ghost may: bool, ghost refusal: Option<PipelineError>)
      returns (r: Result<bool, PipelineError>)
      requires Valid() && ByNextProof(env, checkpoint.height, plannedCheckpoint.height, may, refusal)
      modifies this
      ensures Traced() && plannedCheckpoint == old(plannedCheckpoint)
      ensures if may && (r.Ok? || r.error == Interrupted) then BeginsOne(sys, old(checkpoint), old(Begun()), Begun())
              else Begun() == old(Begun())
      ensures r.Ok? ==> Valid()
      ensures if refusal.Some? then r == Err(refusal.value) else r.Ok? || r == Err(Interrupted)
      ensures r.Err? && r.error != Interrupted ==> checkpoint == old(checkpoint) && world == old(world)
      ensures !may ==>
                && r != Err(Interrupted) && (r.Ok? ==> r.value == didWork)
                && checkpoint == old(checkpoint) && world == old(world)
      ensures r.Ok? && may ==>
                && checkpoint.height == old(checkpoint).height + 1 && r.value
                && CommitsPrepared(sys, old(checkpoint), old(world), checkpoint, world)
    {
      if checkpoint.height == U32_MAX {
        return Err(CheckpointAtLimit);
      }
      if checkpoint.height + 1 !in inflight {
        return Ok(didWork);
      }
      var committed := CommitExpected(env);
      if committed.Err? {
        return Err(committed.error);
      }
      return Ok(true);
    }

    /** Take the next height out of flight, wait for its proof and commit it. A proof that does not
        come, fails or does not bind stops the poll before any effect. */
    method CommitExpected(env: Environment) returns (r: Result<(), PipelineError>)
      requires Valid() && checkpoint.height < U32_MAX && checkpoint.height + 1 in inflight
      modifies this
      ensures Traced() && plannedCheckpoint == old(plannedCheckpoint)
      ensures if r.Ok? || r.error == Interrupted then BeginsOne(sys, old(checkpoint), old(Begun()), Begun())
              else Begun() == old(Begun())
      ensures var h := old(checkpoint).height + 1;
              match env.proofs(h)
              case Pending => r == Err(WatchdogExpired)
              case Failed => r == Err(ProofFailed(h))
              case Ready => if env.proofBinds(h) then r.Ok? || r == Err(Interrupted) else r == Err(ProofRejected)
      ensures r.Err? && r.error != Interrupted ==> checkpoint == old(checkpoint) && world == old(world)
      ensures r.Ok? ==>
                && Valid() && checkpoint.height == old(checkpoint).height + 1
                && CommitsPrepared(sys, old(checkpoint), old(world), checkpoint, world)
    {
      var expected := checkpoint.height + 1;
      var t := TakeExpected();
      match env.proofs(expected)
      case Pending =>
        return Err(WatchdogExpired);
      case Failed =>
        return Err(ProofFailed(expected));
      case Ready =>
        r := CommitTaken(t, env.proofBinds(expected));
    }

    /** Commit the height that has left the window, if its proof binds it. */
    method CommitTaken(t: PreparedTransition, proofBinds: bool) returns (r: Result<(), PipelineError>)
      requires Traced() && proc == Running(checkpoint) && checkpoint.height < U32_MAX
      requires WellPrepared(sys, t, checkpoint.height + 1) && t.parent == fingerprint(checkpoint)
      requires sys.prepares(checkpoint, Prepared(t.next, t.commitment))
      modifies this`world, this`checkpoint, this`proc, this`events
      ensures Traced()
      ensures if r.Ok? || r.error == Interrupted then BeginsOne(sys, old(checkpoint), old(Begun()), Begun())
              else Begun() == old(Begun())
      ensures if proofBinds then r.Ok? || r == Err(Interrupted) else r == Err(ProofRejected)
      ensures r.Err? && r.error != Interrupted ==> checkpoint == old(checkpoint) && world == old(world)
      ensures r.Ok? ==>
                && proc == Running(checkpoint) && checkpoint == t.next
                && CommitsPrepared(sys, old(checkpoint), old(world), checkpoint, world)
    {
      ghost var p := Prepared(t.next, t.commitment);
      r := CommitPrepared(t, proofBinds);
      assert r.Ok? ==> CommitTookEffect(sys, old(world), p, world);
    }

    /** The next height leaves the window; once it is committed, the rest is a window again. */
    method TakeExpected() returns (t: PreparedTransition)
      requires WindowOk() && checkpoint.height + 1 in inflight
      modifies this`inflight
      ensures WellPrepared(sys, t, checkpoint.height + 1) && t.parent == fingerprint(checkpoint)
      ensures sys.prepares(checkpoint, Prepared(t.next, t.commitment))
      ensures InWindow(sys, fingerprint, window, t.next, plannedCheckpoint, inflight)
    {
      WindowAdvances(sys, fingerprint, window, checkpoint, plannedCheckpoint, inflight);
      t := inflight[checkpoint.height + 1];
      var rest := inflight - {checkpoint.height + 1};
      assert InWindow(sys, fingerprint, window, t.next, plannedCheckpoint, rest);
      inflight := rest;
    }
  }
}
