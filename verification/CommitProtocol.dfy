/** The commit and crash-recovery protocol as a transition system over everything that outlives
    the process: the Redis checkpoint and journal, the on-chain header, the operator's buffer
    account and the on-chain record of processed mint groups. The process may crash between any
    two of its effects, also while it recovers; a submitted block update may land at any moment
    or never, with or without the response being seen. */
module CommitProtocol {
  import opened Wrappers
  import opened MachineInts
  import opened Checkpoints

  // ---------- state ----------

  datatype UploadedBuffers = UploadedBuffers(mintBuffer: nat, txoBuffer: nat)

  datatype Journal = Journal(
    checkpoint: Checkpoint, uploaded: Option<UploadedBuffers>, commitment: Option<Commitment>,
    signature: Option<nat>, mintProgress: Option<nat>)

  /** Contents of the operator's one pair of buffer accounts. */
  datatype Upload = Upload(height: nat, commitment: Commitment)

  /** A submitted block update: it proves a transition from `base` to `next`. */
  datatype Update = Update(base: Header, next: Header)

  /** Mint group `1` of the block update that brought the chain to height `0`. */
  type Group = (nat, nat)

  datatype World = World(
    checkpointKey: Option<Checkpoint>,
    journalKey: Option<Journal>,
    header: Header,
    outstanding: Option<Update>,
    buffer: Option<Upload>,
    claimed: set<Group>,              // the on-chain tracker
    minted: seq<Group>,               // every mint transaction that took effect, in order
    authorised: map<nat, Commitment>) // what the update to each height authorised minting

  /** A transition whose proof has been checked. */
  datatype Prepared = Prepared(next: Checkpoint, commitment: Commitment)

  /** How far a commit has come: the last effect that took place. */
  datatype Stage = Journaled | Uploaded | BuffersRecorded | Submitted | Accepted
    | SignatureRecorded | Minted | ProgressRecorded | Promoted

  datatype Proc =
    | Stopped
    | Booting(snapshot: Header)
    | Completing(snapshot: Header, journal: Journal)
    | Promoting(snapshot: Header, checkpoint: Checkpoint)
    | Clearing(snapshot: Header, checkpoint: Checkpoint)
    | FailedClosed
    | Running(checkpoint: Checkpoint)
    | Committing(checkpoint: Checkpoint, prepared: Prepared, at: Stage)

  datatype State = State(world: World, proc: Proc)

  type pos = n: nat | n > 0 witness 1

  /** `validates` is the validation of checkpoints read back from the journal; `offers` tells what
      can be put in for the block of a height, and `prepares` what can be prepared from a checkpoint.
      `initial` is the checkpoint derived from the configured start height: it is not stored
      before the first commit. `lateLanding` drops the assumption that a submission left behind
      by a crash does not land once the service has been restarted. */
  datatype System = System(
    initial: Checkpoint, validates: Checkpoint -> bool, ghost offers: (nat, Input) -> bool,
    ghost prepares: (Checkpoint, Prepared) -> bool, groupSize: pos, buffers: UploadedBuffers, lateLanding: bool)
  {
    ghost predicate Valid() {
      initial.header.tipHeight == initial.height && !lateLanding
    }

    /** Number of on-chain mint groups of a commitment. */
    function Groups(c: Commitment): (n: nat)
      ensures n == 0 <==> c.mints == []
    {
      (|c.mints| + groupSize - 1) / groupSize
    }

    function Init(): State {
      State(World(None, None, initial.header, None, None, {}, [], map[]), Stopped)
    }

    /** The checkpoint a start loads. */
    function Committed(w: World): Checkpoint {
      if w.checkpointKey.Some? then w.checkpointKey.value else initial
    }
  }

  /** There are as many groups as it takes: each holds a mint, and each mint is in one. */
  lemma {:induction false} GroupsMeaning(sys: System, c: Commitment, g: nat)
    ensures g < sys.Groups(c) <==> g * sys.groupSize < |c.mints|
    ensures forall i: nat :: i < |c.mints| ==> i / sys.groupSize < sys.Groups(c)
  {
    CeilingQuotient(|c.mints|, sys.groupSize, g);
    forall i: nat | i < |c.mints|
      ensures i / sys.groupSize < sys.Groups(c)
    {
      CeilingQuotient(|c.mints|, sys.groupSize, i / sys.groupSize);
      assert i / sys.groupSize * sys.groupSize <= i;
    }
  }

  lemma CeilingQuotient(n: nat, q: pos, g: nat)
    ensures g < (n + q - 1) / q <==> g * q < n
  {
    var x := n + q - 1;
    assert x / q * q <= x < (x / q + 1) * q;
    if g < x / q {
      ProductMonotone(g + 1, x / q, q);
    } else {
      ProductMonotone(x / q, g, q);
    }
  }

  lemma ProductMonotone(a: nat, b: nat, q: nat)
    requires a <= b
    ensures a * q <= b * q
  {
    assert b * q == a * q + (b - a) * q;
  }

  // ---------- the decisions of recovery ----------

  datatype RecoveryPlan =
    | UpToDate
    | DiscardStaleJournal
    | PromoteCheckpoint(checkpoint: Checkpoint)
    | CompleteMint(checkpoint: Checkpoint, commitment: Commitment, buffers: UploadedBuffers)
    | FailClosed

  predicate MatchesChain(cp: Checkpoint, header: Header) {
    cp.header == header
  }

  function PlanJournalRecovery(cp: Checkpoint, header: Header, journal: Option<Journal>): RecoveryPlan {
    if MatchesChain(cp, header) then if journal.Some? then DiscardStaleJournal else UpToDate
    else if journal == None then FailClosed
    else
      var j := journal.value;
      if j.checkpoint.height != Min(cp.height + 1, U32_MAX) then FailClosed
      else if !MatchesChain(j.checkpoint, header) then FailClosed
      else if j.mintProgress.Some? then PromoteCheckpoint(j.checkpoint)
      else if j.commitment == None || j.uploaded == None then FailClosed
      else CompleteMint(j.checkpoint, j.commitment.value, j.uploaded.value)
  }

  /** What a recovery does, exactly: nothing if the stored checkpoint has the chain's header; it goes on
      from the journal only if that is one height above, has the chain's header itself, and either
      has its mints done or knows what to mint; in every other case it fails closed. */
  lemma {:induction false} RecoveryDecides(cp: Checkpoint, header: Header, journal: Option<Journal>)
    ensures var plan := PlanJournalRecovery(cp, header, journal);
            && (plan == UpToDate <==> cp.header == header && journal == None)
            && (plan == DiscardStaleJournal <==> cp.header == header && journal.Some?)
            && (plan.PromoteCheckpoint? || plan.CompleteMint? <==>
                  && cp.header != header && journal.Some?
                  && var j := journal.value;
                  && j.checkpoint.header == header && j.checkpoint.height == Min(cp.height + 1, U32_MAX)
                  && (j.mintProgress.Some? || (j.commitment.Some? && j.uploaded.Some?)))
            && (plan.PromoteCheckpoint? ==>
                  journal.value.mintProgress.Some? && plan.checkpoint == journal.value.checkpoint)
            && (plan.CompleteMint? ==>
                  && journal.value.mintProgress == None && plan.checkpoint == journal.value.checkpoint
                  && Some(plan.commitment) == journal.value.commitment && Some(plan.buffers) == journal.value.uploaded)
  {
  }

  // ---------- events ----------

  datatype Event =
    | Crash                 // the process dies, or stops with an error
    | Land                  // the outstanding block update takes effect on chain
    | Boot                  // a new process reads the on-chain header
    | Reconcile             // it compares it with the stored checkpoint and journal
    | Begin(prepared: Prepared)
    | MintGroup(group: nat)
    | Advance               // the next effect of the commit or of the recovery

  /** The first `n` mint groups of a height. */
  ghost function FirstGroups(height: nat, n: nat): set<Group> {
    set g: nat | g < n :: (height, g)
  }

  ghost predicate NoneClaimed(w: World, height: nat) {
    forall g: nat {:trigger (height, g) in w.claimed} :: (height, g) !in w.claimed
  }

  predicate AllClaimed(w: World, height: nat, groups: nat) {
    forall g: nat | g < groups :: (height, g) in w.claimed
  }

  function FirstJournal(p: Prepared): Journal {
    Journal(p.next, None, Some(p.commitment), None, None)
  }

  function BuffersJournal(sys: System, p: Prepared): Journal {
    FirstJournal(p).(uploaded := Some(sys.buffers))
  }

  function SignedJournal(sys: System, p: Prepared): Journal {
    BuffersJournal(sys, p).(signature := Some(p.next.height))
  }

  function ProgressJournal(sys: System, p: Prepared): Journal {
    SignedJournal(sys, p).(mintProgress := Some(sys.Groups(p.commitment)))
  }

  /** The commit's effects, one by one. */
  function AdvanceCommit(sys: System, w: World, cp: Checkpoint, p: Prepared, at: Stage): Option<State> {
    match at
    case Journaled =>
      Some(State(w.(buffer := Some(Upload(p.next.height, p.commitment))), Committing(cp, p, Uploaded)))
    case Uploaded =>
      Some(State(w.(journalKey := Some(BuffersJournal(sys, p))), Committing(cp, p, BuffersRecorded)))
    case BuffersRecorded =>
      Some(State(w.(outstanding := Some(Update(cp.header, p.next.header))), Committing(cp, p, Submitted)))
    case Submitted =>   // the sender only answers for an update that has landed
      if w.outstanding == None then Some(State(w, Committing(cp, p, Accepted))) else None
    case Accepted =>
      Some(State(w.(journalKey := Some(SignedJournal(sys, p))), Committing(cp, p, SignatureRecorded)))
    case SignatureRecorded =>
      if AllClaimed(w, w.header.tipHeight, sys.Groups(p.commitment)) then Some(State(w, Committing(cp, p, Minted)))
          else None
    case Minted =>
      Some(State(w.(journalKey := Some(ProgressJournal(sys, p))), Committing(cp, p, ProgressRecorded)))
    case ProgressRecorded =>
      Some(State(w.(checkpointKey := Some(p.next)), Committing(cp, p, Promoted)))
    case Promoted =>
      Some(State(w.(journalKey := None), Running(p.next)))
  }

  /** The recovery's effects, one by one. */
  function AdvanceRecovery(sys: System, w: World, proc: Proc): Option<State> {
    match proc
    case Completing(snapshot, journal) =>
      if journal.commitment.Some? && AllClaimed(w, w.header.tipHeight, sys.Groups(journal.commitment.value)) then
        Some(State(w, Promoting(snapshot, journal.checkpoint)))
      else None
    case Promoting(snapshot, cp) =>
      Some(State(w.(checkpointKey := Some(cp)), Clearing(snapshot, cp)))
    case Clearing(snapshot, cp) =>
      Some(State(w.(journalKey := None), if MatchesChain(cp, snapshot) then Running(cp) else FailedClosed))
    case _ => None
  }

  /** The recovery, effect by effect: promotion only once the whole commitment is minted, then the stored
      checkpoint, then the journal's removal; a process runs on the recovered checkpoint only if
      that has the header that was read. */
  lemma {:induction false} RecoveryStepMeaning(sys: System, w: World, proc: Proc)
    ensures var r := AdvanceRecovery(sys, w, proc);
            match proc
            case Completing(snapshot, journal) =>
              && (r.Some? <==> journal.commitment.Some?
                               && AllClaimed(w, w.header.tipHeight, sys.Groups(journal.commitment.value)))
              && (r.Some? ==> r.value == State(w, Promoting(snapshot, journal.checkpoint)))
            case Promoting(snapshot, cp) =>
              r == Some(State(w.(checkpointKey := Some(cp)), Clearing(snapshot, cp)))
            case Clearing(snapshot, cp) =>
              && r.Some? && r.value.world == w.(journalKey := None)
              && r.value.proc == if cp.header == snapshot then Running(cp) else FailedClosed
            case _ => r == None
  {
  }

  /** What a start does after reading the header. */
  function Reconciled(sys: System, w: World, snapshot: Header): State {
    var cp := sys.Committed(w);
    if MatchesChain(cp, snapshot) then State(w.(journalKey := None), Running(cp))
    else if w.journalKey == None || !sys.validates(w.journalKey.value.checkpoint) then State(w, FailedClosed)
    else
      match PlanJournalRecovery(cp, snapshot, w.journalKey)
      case PromoteCheckpoint(next) => State(w, Promoting(snapshot, next))
      case CompleteMint(next, commitment, buffers) => State(w, Completing(snapshot, w.journalKey.value))
      case _ => State(w, FailedClosed)
  }

  /** The chain takes an update that starts from its header, with the buffer it finds, and drops
      any other. */
  function Landed(w: World, u: Update): World {
    if u.base == w.header && w.buffer.Some? then
      w.(header := u.next, outstanding := None,
          authorised := w.authorised[u.next.tipHeight := w.buffer.value.commitment])
    else w
  }

  /** The chain takes an update exactly if that starts from its own header and there is a buffer; it then
      has the next header, and authorises what is in the buffer. */
  lemma {:induction false} LandingMeaning(w: World, u: Update)
    ensures if u.base == w.header && w.buffer.Some? then
              && Landed(w, u).header == u.next && Landed(w, u).outstanding == None
              && Landed(w, u).authorised == w.authorised[u.next.tipHeight := w.buffer.value.commitment]
              && Landed(w, u).minted == w.minted && Landed(w, u).claimed == w.claimed
              && Landed(w, u).buffer == w.buffer
              && Landed(w, u).checkpointKey == w.checkpointKey && Landed(w, u).journalKey == w.journalKey
            else Landed(w, u) == w
  {
  }

  /** The chain mints a group of the buffer, unless the tracker has it already. */
  predicate ChainMints(sys: System, w: World, g: nat) {
    w.buffer.Some? && g < sys.Groups(w.buffer.value.commitment) && (w.header.tipHeight, g) !in w.claimed
  }

  function AfterMint(w: World, g: nat): World {
    w.(claimed := w.claimed + {(w.header.tipHeight, g)}, minted := w.minted + [(w.header.tipHeight, g)])
  }

  predicate IsMinting(proc: Proc) {
    proc.Completing? || (proc.Committing? && proc.at == SignatureRecorded)
  }

  ghost function Apply(sys: System, s: State, e: Event): Option<State> {
    var w := s.world;
    match e
    case Crash => Some(State(w, Stopped))
    case Land =>
      if w.outstanding.Some? then Some(State(Landed(w, w.outstanding.value), s.proc)) else None
    case Boot =>
      if s.proc.Stopped? then
        Some(State(if sys.lateLanding then w else w.(outstanding := None), Booting(w.header)))
      else None
    case Reconcile =>
      if s.proc.Booting? then Some(Reconciled(sys, w, s.proc.snapshot)) else None
    case Begin(p) =>
      if s.proc.Running? && p.next.height == s.proc.checkpoint.height + 1
         && p.next.header.tipHeight == p.next.height && sys.validates(p.next)
         && sys.prepares(s.proc.checkpoint, p)
      then Some(State(w.(journalKey := Some(FirstJournal(p))), Committing(s.proc.checkpoint, p, Journaled)))
      else None
    case MintGroup(g) =>
      if IsMinting(s.proc) && ChainMints(sys, w, g) then Some(State(AfterMint(w, g), s.proc)) else None
    case Advance =>
      if s.proc.Committing? then AdvanceCommit(sys, w, s.proc.checkpoint, s.proc.prepared, s.proc.at)
      else AdvanceRecovery(sys, w, s.proc)
  }

  /** A start that has read the header goes on only where the recovery says so; it runs only on a
      checkpoint with that very header. */
  lemma {:induction false} ReconciledMeaning(sys: System, w: World, snapshot: Header)
    ensures var cp, s := sys.Committed(w), Reconciled(sys, w, snapshot);
            && (s.proc.Running? <==> cp.header == snapshot) && (s.proc.Running? ==> s.proc.checkpoint == cp)
            && (s.proc.Promoting? || s.proc.Completing? <==>
                  && cp.header != snapshot && w.journalKey.Some? && sys.validates(w.journalKey.value.checkpoint)
                  && PlanJournalRecovery(cp, snapshot, w.journalKey) != FailClosed)
            && (s.proc.Promoting? ==> s.proc.checkpoint == w.journalKey.value.checkpoint)
            && (s.proc.Completing? ==> s.proc.journal == w.journalKey.value)
            && s.world == if s.proc.Running? then w.(journalKey := None) else w
  {
  }

  ghost function Exec(sys: System, from: State, events: seq<Event>): Option<State>
    decreases |events|
  {
    if events == [] then Some(from)
    else
      var before := Exec(sys, from, events[..|events| - 1]);
      if before == None then None else Apply(sys, before.value, events[|events| - 1])
  }

  // ---------- the invariant ----------

  ghost predicate InSync(sys: System, w: World) {
    w.header == sys.Committed(w).header
  }

  /** A journal exactly one above the stored checkpoint, with buffers and commitment, that
      describes the buffer account. */
  ghost predicate ReadyJournal(sys: System, w: World) {
    && w.journalKey.Some? && w.journalKey.value.commitment.Some? && w.journalKey.value.uploaded.Some?
    && var j := w.journalKey.value;
    && j.checkpoint.height == sys.Committed(w).height + 1 == j.checkpoint.header.tipHeight
    && sys.validates(j.checkpoint) && sys.prepares(sys.Committed(w), Prepared(j.checkpoint, j.commitment.value))
    && w.buffer == Some(Upload(j.checkpoint.height, j.commitment.value))
  }

  /** The chain is one update ahead of the stored checkpoint, and the journal knows all about it. */
  ghost predicate Ahead(sys: System, w: World) {
    && ReadyJournal(sys, w)
    && var j := w.journalKey.value;
    && w.header == j.checkpoint.header
    && j.checkpoint.height in w.authorised && w.authorised[j.checkpoint.height] == j.commitment.value
    && (j.mintProgress.Some? ==> AllClaimed(w, j.checkpoint.height, sys.Groups(j.commitment.value)))
  }

  ghost predicate OutstandingOk(sys: System, w: World) {
    w.outstanding.Some? ==>
      && InSync(sys, w) && ReadyJournal(sys, w) && w.journalKey.value.mintProgress == None
      && w.outstanding.value == Update(w.header, w.journalKey.value.checkpoint.header)
  }

  ghost predicate NoDuplicates(groups: seq<Group>) {
    forall i, j :: 0 <= i < j < |groups| ==> groups[i] != groups[j]
  }

  /** Block by block. */
  ghost predicate InOrder(groups: seq<Group>) {
    forall i, j :: 0 <= i < j < |groups| ==> groups[i].0 <= groups[j].0
  }

  /** Mints: each at most once and block by block, only what an update authorised, and everything up to the stored
      checkpoint. */
  ghost predicate MintsOk(sys: System, w: World) {
    && (forall h {:trigger h in w.authorised} :: h in w.authorised <==> sys.initial.height < h <= w.header.tipHeight)
    && (forall h {:trigger w.authorised[h]} :: h in w.authorised && h <= sys.Committed(w).height ==>
          AllClaimed(w, h, sys.Groups(w.authorised[h])))
    && (forall h: nat, g: nat {:trigger (h, g) in w.claimed} :: (h, g) in w.claimed ==>
          h in w.authorised && g < sys.Groups(w.authorised[h]))
    && NoDuplicates(w.minted) && InOrder(w.minted)
    && (forall x {:trigger x in w.claimed} :: x in w.minted <==> x in w.claimed)
  }

  ghost predicate ProcOk(sys: System, s: State) {
    var w := s.world;
    match s.proc
    case Stopped => true
    case Booting(snapshot) => w.outstanding == None && snapshot == w.header
    case Completing(snapshot, j) =>
      && w.outstanding == None && snapshot == w.header && Ahead(sys, w) && w.journalKey == Some(j)
          && j.mintProgress == None
    case Promoting(snapshot, cp) =>
      && w.outstanding == None && snapshot == w.header && Ahead(sys, w) && w.journalKey.value.checkpoint == cp
      && AllClaimed(w, cp.height, sys.Groups(w.journalKey.value.commitment.value))
    case Clearing(snapshot, cp) =>
      w.outstanding == None && snapshot == w.header && w.checkpointKey == Some(cp) && InSync(sys, w)
    case FailedClosed => false
    case Running(cp) =>
      w.outstanding == None && w.journalKey == None && cp == sys.Committed(w) && InSync(sys, w)
    case Committing(cp, p, at) => CommitOk(sys, w, cp, p, at)
  }

  ghost predicate CommitOk(sys: System, w: World, cp: Checkpoint, p: Prepared, at: Stage) {
    && p.next.height == cp.height + 1 == p.next.header.tipHeight && sys.validates(p.next)
    && (at == Promoted || (cp == sys.Committed(w) && sys.prepares(cp, p)))
    && (at == Submitted || w.outstanding == None)
    && (at !in {Journaled, Promoted} ==> w.buffer == Some(Upload(p.next.height, p.commitment)))
    && match at
       case Journaled => InSync(sys, w) && w.journalKey == Some(FirstJournal(p))
       case Uploaded => InSync(sys, w) && w.journalKey == Some(FirstJournal(p))
       case BuffersRecorded => InSync(sys, w) && w.journalKey == Some(BuffersJournal(sys, p))
       case Submitted =>
         && w.journalKey == Some(BuffersJournal(sys, p))
         && if w.outstanding.Some? then InSync(sys, w) else Ahead(sys, w) && NoneClaimed(w, p.next.height)
       case Accepted =>
         Ahead(sys, w) && w.journalKey == Some(BuffersJournal(sys, p)) && NoneClaimed(w, p.next.height)
       case SignatureRecorded => Ahead(sys, w) && w.journalKey == Some(SignedJournal(sys, p))
       case Minted =>
         && Ahead(sys, w) && w.journalKey == Some(SignedJournal(sys, p))
         && AllClaimed(w, p.next.height, sys.Groups(p.commitment))
       case ProgressRecorded => Ahead(sys, w) && w.journalKey == Some(ProgressJournal(sys, p))
       case Promoted => InSync(sys, w) && w.checkpointKey == Some(p.next)
  }

  ghost predicate WorldOk(sys: System, w: World) {
    && sys.Committed(w).height == sys.Committed(w).header.tipHeight >= sys.initial.height
    && (InSync(sys, w) || Ahead(sys, w))
    && OutstandingOk(sys, w)
    && MintsOk(sys, w)
  }

  ghost predicate Inv(sys: System, s: State) {
    WorldOk(sys, s.world) && ProcOk(sys, s)
  }

  // ---------- every event keeps the invariant ----------

  lemma {:induction false} LandKeepsInv(sys: System, s: State)
    requires sys.Valid() && Inv(sys, s) && s.world.outstanding.Some?
    ensures Inv(sys, State(Landed(s.world, s.world.outstanding.value), s.proc))
  {
    var w := s.world;
    var w' := Landed(w, w.outstanding.value);
    assert sys.Committed(w') == sys.Committed(w);
    assert Ahead(sys, w');
    forall h {:trigger w'.authorised[h]} | h in w'.authorised && h <= sys.Committed(w').height
      ensures AllClaimed(w', h, sys.Groups(w'.authorised[h]))
    {
      assert h in w.authorised && w'.authorised[h] == w.authorised[h];
    }
    assert MintsOk(sys, w');
  }

  lemma {:induction false} MintKeepsInv(sys: System, s: State, g: nat)
    requires sys.Valid() && Inv(sys, s) && IsMinting(s.proc) && ChainMints(sys, s.world, g)
    ensures Inv(sys, State(AfterMint(s.world, g), s.proc))
  {
    var w := s.world;
    var w', x := AfterMint(w, g), (w.header.tipHeight, g);
    assert x !in w.minted;
    forall i | 0 <= i < |w.minted|
      ensures w.minted[i].0 <= x.0
    {
      var (h, k) := w.minted[i];
      assert w.minted[i] in w.minted && (h, k) in w.claimed;
    }
    forall y {:trigger y in w'.claimed}
      ensures y in w'.minted <==> y in w'.claimed
    {
      assert y in w'.minted <==> y in w.minted || y == x;
    }
    forall h {:trigger w'.authorised[h]} | h in w'.authorised && h <= sys.Committed(w').height
      ensures AllClaimed(w', h, sys.Groups(w'.authorised[h]))
    {
      assert AllClaimed(w, h, sys.Groups(w.authorised[h]));
    }
    assert Ahead(sys, w');
  }

  /** The mint record is untouched by effects on the journal, the buffer and the submission. */
  lemma {:induction false} SameMints(sys: System, w: World, w': World)
    requires MintsOk(sys, w) && sys.Committed(w) == sys.Committed(w') && w.header == w'.header
    requires w.authorised == w'.authorised && w.claimed == w'.claimed && w.minted == w'.minted
    ensures MintsOk(sys, w')
  {
    forall h {:trigger w'.authorised[h]} | h in w'.authorised && h <= sys.Committed(w').height
      ensures AllClaimed(w', h, sys.Groups(w'.authorised[h]))
    {
      assert AllClaimed(w, h, sys.Groups(w.authorised[h]));
    }
  }

  lemma {:induction false} ReconcileKeepsInv(sys: System, s: State)
    requires sys.Valid() && Inv(sys, s) && s.proc.Booting?
    ensures Inv(sys, Reconciled(sys, s.world, s.proc.snapshot))
  {
    var w := s.world;
    if InSync(sys, w) {
      SameMints(sys, w, w.(journalKey := None));
    } else {
      var j := w.journalKey.value;
      assert Ahead(sys, w);
    }
  }

  lemma {:induction false} PromoteKeepsWorld(sys: System, w: World, cp: Checkpoint)
    requires sys.Valid() && WorldOk(sys, w) && Ahead(sys, w) && w.outstanding == None
    requires w.journalKey.value.checkpoint == cp
    requires AllClaimed(w, cp.height, sys.Groups(w.journalKey.value.commitment.value))
    ensures WorldOk(sys, w.(checkpointKey := Some(cp))) && InSync(sys, w.(checkpointKey := Some(cp)))
  {
    var w' := w.(checkpointKey := Some(cp));
    forall h {:trigger w'.authorised[h]} | h in w'.authorised && h <= cp.height
      ensures AllClaimed(w', h, sys.Groups(w'.authorised[h]))
    {
      assert h == cp.height || AllClaimed(w, h, sys.Groups(w.authorised[h]));
    }
  }

  lemma {:induction false} AdvanceRecoveryKeepsInv(sys: System, s: State)
    requires sys.Valid() && Inv(sys, s) && AdvanceRecovery(sys, s.world, s.proc).Some?
    ensures Inv(sys, AdvanceRecovery(sys, s.world, s.proc).value)
  {
    if s.proc.Promoting? {
      PromoteKeepsWorld(sys, s.world, s.proc.checkpoint);
    }
  }

  /** Up to the submission the chain has not moved. */
  lemma {:induction false} AdvanceEarlyKeepsInv(sys: System, w: World, cp: Checkpoint, p: Prepared, at: Stage)
    requires sys.Valid() && Inv(sys, State(w, Committing(cp, p, at)))
    requires at in {Journaled, Uploaded, BuffersRecorded}
    ensures Inv(sys, AdvanceCommit(sys, w, cp, p, at).value)
  {
    SameMints(sys, w, AdvanceCommit(sys, w, cp, p, at).value.world);
  }

  /** After it, the journal follows the chain. */
  lemma {:induction false} AdvanceLateKeepsInv(sys: System, w: World, cp: Checkpoint, p: Prepared, at: Stage)
    requires sys.Valid() && Inv(sys, State(w, Committing(cp, p, at)))
    requires at in {Submitted, Accepted, SignatureRecorded, Minted, Promoted}
    requires AdvanceCommit(sys, w, cp, p, at).Some?
    ensures Inv(sys, AdvanceCommit(sys, w, cp, p, at).value)
  {
    SameMints(sys, w, AdvanceCommit(sys, w, cp, p, at).value.world);
  }

  lemma {:induction false} AdvanceCommitKeepsInv(sys: System, w: World, cp: Checkpoint, p: Prepared, at: Stage)
    requires sys.Valid() && Inv(sys, State(w, Committing(cp, p, at)))
    requires AdvanceCommit(sys, w, cp, p, at).Some?
    ensures Inv(sys, AdvanceCommit(sys, w, cp, p, at).value)
  {
    match at
    case Journaled | Uploaded | BuffersRecorded => AdvanceEarlyKeepsInv(sys, w, cp, p, at);
    case ProgressRecorded => PromoteKeepsWorld(sys, w, p.next);
    case _ => AdvanceLateKeepsInv(sys, w, cp, p, at);
  }

  lemma {:induction false} BeginKeepsInv(sys: System, s: State, p: Prepared)
    requires sys.Valid() && Inv(sys, s) && Apply(sys, s, Begin(p)).Some?
    ensures Inv(sys, Apply(sys, s, Begin(p)).value)
  {
    SameMints(sys, s.world, s.world.(journalKey := Some(FirstJournal(p))));
  }

  lemma {:induction false} ApplyKeepsInv(sys: System, s: State, e: Event)
    requires sys.Valid() && Inv(sys, s) && Apply(sys, s, e).Some?
    ensures Inv(sys, Apply(sys, s, e).value)
  {
    match e
    case Land => LandKeepsInv(sys, s);
    case Reconcile => ReconcileKeepsInv(sys, s);
    case MintGroup(g) => MintKeepsInv(sys, s, g);
    case Begin(p) => BeginKeepsInv(sys, s, p);
    case Advance =>
      if s.proc.Committing? {
        AdvanceCommitKeepsInv(sys, s.world, s.proc.checkpoint, s.proc.prepared, s.proc.at);
      } else {
        AdvanceRecoveryKeepsInv(sys, s);
      }
    case Boot => SameMints(sys, s.world, s.world.(outstanding := None));
    case Crash =>
  }

  lemma {:induction false} ExecKeepsInv(sys: System, from: State, events: seq<Event>)
    requires sys.Valid() && Inv(sys, from) && Exec(sys, from, events).Some?
    ensures Inv(sys, Exec(sys, from, events).value)
    decreases |events|
  {
    if events != [] {
      var earlier := events[..|events| - 1];
      ExecKeepsInv(sys, from, earlier);
      ApplyKeepsInv(sys, Exec(sys, from, earlier).value, events[|events| - 1]);
    }
  }
}
