/** What the commit protocol guarantees over every run: no crash makes recovery impossible,
    mints happen exactly once and in order, and each commit is all or nothing. */
module CommitSafety {
  import opened Wrappers
  import opened MachineInts
  import opened Checkpoints
  import opened CommitProtocol

  // ---------- over every run ----------

  lemma {:induction false} InitInv(sys: System)
    requires sys.Valid()
    ensures Inv(sys, sys.Init())
  {
  }

  lemma {:induction false} ReachableInv(sys: System, events: seq<Event>)
    requires sys.Valid() && Exec(sys, sys.Init(), events).Some?
    ensures Inv(sys, Exec(sys, sys.Init(), events).value)
  {
    InitInv(sys);
    ExecKeepsInv(sys, sys.Init(), events);
  }

  /** Crash safety: at every moment of every run, the stored checkpoint matches the chain, or a
      journal exactly one above it does and carries buffers and commitment; so a restart at that
      moment does not fail closed, and none ever has. */
  lemma {:induction false} CrashSafety(sys: System, events: seq<Event>)
    requires sys.Valid() && Exec(sys, sys.Init(), events).Some?
    ensures var s := Exec(sys, sys.Init(), events).value;
            var w, cp := s.world, sys.Committed(s.world);
            && s.proc != FailedClosed
            && (cp.header == w.header
                || (&& w.journalKey.Some?
                    && var j := w.journalKey.value;
                    && j.checkpoint.height == cp.height + 1 && j.checkpoint.header == w.header
                    && j.commitment.Some? && j.uploaded.Some?))
            && PlanJournalRecovery(cp, w.header, w.journalKey) != FailClosed
            && !Reconciled(sys, w, w.header).proc.FailedClosed?
  {
    ReachableInv(sys, events);
  }

  /** Exactly-once, in-order minting: nothing is minted twice, out of block order or without
      authorisation, and whatever was authorised up to the stored checkpoint has been minted. */
  lemma {:induction false} MintedExactlyOnce(sys: System, events: seq<Event>)
    requires sys.Valid() && Exec(sys, sys.Init(), events).Some?
    ensures var w := Exec(sys, sys.Init(), events).value.world;
            && (forall i, j :: 0 <= i < j < |w.minted| ==> w.minted[i] != w.minted[j] && w.minted[i].0 <= w.minted[j].0)
            && (forall h: nat, g: nat {:trigger (h, g) in w.minted} :: (h, g) in w.minted ==>
                  h in w.authorised && g < sys.Groups(w.authorised[h]))
            && (forall h: nat, g: nat {:trigger (h, g) in w.minted} ::
                  sys.initial.height < h <= sys.Committed(w).height ==>
                  h in w.authorised && (g < sys.Groups(w.authorised[h]) ==> (h, g) in w.minted))
  {
    ReachableInv(sys, events);
    var w := Exec(sys, sys.Init(), events).value.world;
    forall h: nat, g: nat {:trigger (h, g) in w.minted}
      ensures (h, g) in w.minted <==> (h, g) in w.claimed
    {
      var x: Group := (h, g);
      assert x in w.minted <==> x in w.claimed;
    }
    forall h: nat, g: nat {:trigger (h, g) in w.minted} | sys.initial.height < h <= sys.Committed(w).height
      ensures h in w.authorised && (g < sys.Groups(w.authorised[h]) ==> (h, g) in w.minted)
    {
      assert h in w.authorised && AllClaimed(w, h, sys.Groups(w.authorised[h]));
    }
  }

  /** No update is submitted, and no buffer overwritten, before all mints of every earlier
      height are done. */
  lemma {:induction false} SubmittedOnlyAfterMints(sys: System, events: seq<Event>, h: nat, g: nat)
    requires sys.Valid() && Exec(sys, sys.Init(), events).Some?
    requires h in Exec(sys, sys.Init(), events).value.world.authorised
    requires g < sys.Groups(Exec(sys, sys.Init(), events).value.world.authorised[h])
    ensures var s := Exec(sys, sys.Init(), events).value;
            && (s.world.outstanding.Some? && h < s.world.outstanding.value.next.tipHeight ==> (h, g) in s.world.minted)
            && (s.proc.Committing? && h < s.proc.prepared.next.height ==> (h, g) in s.world.minted)
  {
    ReachableInv(sys, events);
    MintedExactlyOnce(sys, events);
    var w := Exec(sys, sys.Init(), events).value.world;
    assert AllClaimed(w, h, sys.Groups(w.authorised[h])) || h > sys.Committed(w).height;
  }

  // ---------- each commit is all or nothing ----------

  /** The world an uninterrupted commit leaves, up to the order of its mints. */
  ghost predicate CommitTookEffect(sys: System, w0: World, p: Prepared, w: World) {
    && w.checkpointKey == Some(p.next) && w.journalKey == None && w.header == p.next.header && w.outstanding == None
    && w.authorised == w0.authorised[p.next.height := p.commitment]
    && w.claimed == w0.claimed + FirstGroups(p.next.height, sys.Groups(p.commitment))
  }

  /** The world of a commit that never happened. */
  ghost predicate CommitHadNoEffect(w0: World, w: World) {
    && w.checkpointKey == w0.checkpointKey && w.journalKey == None && w.header == w0.header && w.outstanding == None
    && w.authorised == w0.authorised && w.claimed == w0.claimed && w.minted == w0.minted
  }

  ghost predicate NoBegin(events: seq<Event>) {
    forall e <- events :: !e.Begin?
  }

  /** Where a run can be that began the commit of `p` in world `w0` and began no other. */
  ghost predicate Between(sys: System, w0: World, p: Prepared, s: State) {
    var w := s.world;
    && (s.proc.Committing? ==> s.proc.prepared == p)
    && w0.claimed <= w.claimed
    && (w.checkpointKey == w0.checkpointKey && w.journalKey.Some? ==>
          w.journalKey.value.checkpoint == p.next && w.journalKey.value.commitment == Some(p.commitment))
    && if w.header == w0.header then
         && w.checkpointKey == w0.checkpointKey
         && w.claimed == w0.claimed && w.minted == w0.minted && w.authorised == w0.authorised
       else
         && w.outstanding == None && w.header == p.next.header && w.checkpointKey in {w0.checkpointKey, Some(p.next)}
         && w.authorised == w0.authorised[p.next.height := p.commitment]
  }

  /** As long as the chain has not taken the update, nothing is minted and nothing promoted. */
  lemma {:induction false} NotYetLanded(sys: System, w0: World, p: Prepared, s: State)
    requires Inv(sys, State(w0, Running(sys.Committed(w0))))
    requires p.next.height == p.next.header.tipHeight == sys.Committed(w0).height + 1
    requires Inv(sys, s) && Between(sys, w0, p, s) && s.world.header == w0.header
    ensures !IsMinting(s.proc) && !s.proc.Promoting? && InSync(sys, s.world)
    ensures s.proc.Committing? ==> s.proc.at in {Journaled, Uploaded, BuffersRecorded, Submitted}
  {
    assert sys.Committed(s.world) == sys.Committed(w0);
    assert w0.header.tipHeight + 1 == p.next.header.tipHeight;
  }

  lemma {:induction false} BetweenAdvance(sys: System, w0: World, p: Prepared, s: State)
    requires sys.Valid() && Inv(sys, State(w0, Running(sys.Committed(w0))))
    requires p.next.height == p.next.header.tipHeight == sys.Committed(w0).height + 1
    requires Inv(sys, s) && Between(sys, w0, p, s) && Apply(sys, s, Advance).Some?
    ensures Between(sys, w0, p, Apply(sys, s, Advance).value)
  {
    if s.world.header == w0.header {
      NotYetLanded(sys, w0, p, s);
    }
  }

  lemma {:induction false} BetweenStep(sys: System, w0: World, p: Prepared, s: State, e: Event)
    requires sys.Valid() && Inv(sys, State(w0, Running(sys.Committed(w0))))
    requires p.next.height == p.next.header.tipHeight == sys.Committed(w0).height + 1
    requires Inv(sys, s) && Between(sys, w0, p, s) && Apply(sys, s, e).Some? && !e.Begin?
    ensures Between(sys, w0, p, Apply(sys, s, e).value)
  {
    assert w0.header.tipHeight + 1 == p.next.header.tipHeight;
    if s.world.header == w0.header {
      NotYetLanded(sys, w0, p, s);
    }
    match e
    case Advance => BetweenAdvance(sys, w0, p, s);
    case Land =>
      assert s.world.header == w0.header && InSync(sys, s.world);
    case _ =>
  }

  lemma {:induction false} BetweenRun(sys: System, w0: World, p: Prepared, from: State, events: seq<Event>)
    requires sys.Valid() && Inv(sys, State(w0, Running(sys.Committed(w0))))
    requires p.next.height == p.next.header.tipHeight == sys.Committed(w0).height + 1
    requires Inv(sys, from) && Between(sys, w0, p, from) && Exec(sys, from, events).Some? && NoBegin(events)
    ensures Between(sys, w0, p, Exec(sys, from, events).value)
    decreases |events|
  {
    if events != [] {
      var earlier := events[..|events| - 1];
      BetweenRun(sys, w0, p, from, earlier);
      ExecKeepsInv(sys, from, earlier);
      BetweenStep(sys, w0, p, Exec(sys, from, earlier).value, events[|events| - 1]);
    }
  }

  lemma {:induction false} LandedCommitIsComplete(sys: System, w0: World, p: Prepared, w: World)
    requires sys.Valid() && Inv(sys, State(w0, Running(sys.Committed(w0))))
            && Inv(sys, State(w, Running(sys.Committed(w))))
    requires p.next.height == p.next.header.tipHeight == sys.Committed(w0).height + 1
    requires Between(sys, w0, p, State(w, Running(sys.Committed(w)))) && w.header != w0.header
    ensures CommitTookEffect(sys, w0, p, w)
  {
    assert w.checkpointKey == Some(p.next);
    var groups := FirstGroups(p.next.height, sys.Groups(p.commitment));
    forall x: Group
      ensures x in w.claimed <==> x in w0.claimed + groups
    {
      var (h, g) := x;
      if x in w.claimed && h != p.next.height {
        assert h in w0.authorised && AllClaimed(w0, h, sys.Groups(w0.authorised[h]));
      }
      if x in groups {
        assert AllClaimed(w, p.next.height, sys.Groups(w.authorised[p.next.height]));
      }
    }
  }

  /** Atomicity: take any run to a running process, let it begin the commit of `p`, and then
      anything happen, crashes and restarts included, but no other commit. Whenever a process
      is running again, either the commit took effect in full, every mint included, exactly as
      if it had not been interrupted, or it had no effect at all; and the on-chain header tells
      which. */
  lemma {:induction false} CommitIsAtomic(sys: System, before: seq<Event>, p: Prepared, after: seq<Event>)
    requires sys.Valid() && NoBegin(after)
    requires Exec(sys, sys.Init(), before).Some? && Apply(sys, Exec(sys, sys.Init(), before).value, Begin(p)).Some?
    requires var begun := Apply(sys, Exec(sys, sys.Init(), before).value, Begin(p)).value;
             Exec(sys, begun, after).Some? && Exec(sys, begun, after).value.proc.Running?
    ensures var s0 := Exec(sys, sys.Init(), before).value;
            var s := Exec(sys, Apply(sys, s0, Begin(p)).value, after).value;
            if s.world.header == s0.world.header then
              CommitHadNoEffect(s0.world, s.world) && s.proc == s0.proc
            else
              CommitTookEffect(sys, s0.world, p, s.world) && s.proc == Running(p.next)
  {
    var s0 := Exec(sys, sys.Init(), before).value;
    ReachableInv(sys, before);
    var begun := Apply(sys, s0, Begin(p)).value;
    ApplyKeepsInv(sys, s0, Begin(p));
    BetweenRun(sys, s0.world, p, begun, after);
    ExecKeepsInv(sys, begun, after);
    var s := Exec(sys, begun, after).value;
    if s.world.header != s0.world.header {
      LandedCommitIsComplete(sys, s0.world, p, s.world);
    }
  }

  // ---------- recovery always gets through ----------

  lemma {:induction false} ExecSnoc(sys: System, from: State, events: seq<Event>, e: Event)
    requires Exec(sys, from, events).Some?
    ensures Exec(sys, from, events + [e]) == Apply(sys, Exec(sys, from, events).value, e)
  {
    assert (events + [e])[..|events|] == events;
  }

  /** Minting the groups from `g` on, skipping those the tracker already has, completes them. */
  lemma {:induction false} RemainingGroupsCanBeMinted(sys: System, from: State, events: seq<Event>, g: nat)
      returns (more: seq<Event>)
    requires sys.Valid() && Inv(sys, from) && Exec(sys, from, events).Some? && NoBegin(events)
    requires var s := Exec(sys, from, events).value;
             && s.proc.Completing? && s.proc.journal.commitment.Some?
                 && g <= sys.Groups(s.proc.journal.commitment.value)
             && AllClaimed(s.world, s.world.header.tipHeight, g)
    ensures NoBegin(more) && Exec(sys, from, more).Some?
    ensures var s, s' := Exec(sys, from, events).value, Exec(sys, from, more).value;
            && s'.proc == s.proc
            && AllClaimed(s'.world, s'.world.header.tipHeight, sys.Groups(s.proc.journal.commitment.value))
    decreases sys.Groups(Exec(sys, from, events).value.proc.journal.commitment.value) - g
  {
    var s := Exec(sys, from, events).value;
    ExecKeepsInv(sys, from, events);
    if g == sys.Groups(s.proc.journal.commitment.value) {
      more := events;
    } else if (s.world.header.tipHeight, g) in s.world.claimed {
      more := RemainingGroupsCanBeMinted(sys, from, events, g + 1);
    } else {
      ExecSnoc(sys, from, events, MintGroup(g));
      more := RemainingGroupsCanBeMinted(sys, from, events + [MintGroup(g)], g + 1);
    }
  }

  lemma {:induction false} PromotionCompletes(sys: System, from: State, events: seq<Event>) returns (more: seq<Event>)
    requires sys.Valid() && Inv(sys, from) && Exec(sys, from, events).Some? && NoBegin(events)
    requires Exec(sys, from, events).value.proc.Promoting?
    ensures NoBegin(more) && Exec(sys, from, more).Some? && Exec(sys, from, more).value.proc.Running?
  {
    ExecSnoc(sys, from, events, Advance);
    ExecSnoc(sys, from, events + [Advance], Advance);
    more := events + [Advance] + [Advance];
    ExecKeepsInv(sys, from, more);
  }

  lemma {:induction false} CompletionCompletes(sys: System, from: State, events: seq<Event>) returns (more: seq<Event>)
    requires sys.Valid() && Inv(sys, from) && Exec(sys, from, events).Some? && NoBegin(events)
    requires Exec(sys, from, events).value.proc.Completing?
    ensures NoBegin(more) && Exec(sys, from, more).Some? && Exec(sys, from, more).value.proc.Running?
  {
    ExecKeepsInv(sys, from, events);
    more := RemainingGroupsCanBeMinted(sys, from, events, 0);
    ExecSnoc(sys, from, more, Advance);
    more := PromotionCompletes(sys, from, more + [Advance]);
  }

  lemma {:induction false} ReconcileCompletes(sys: System, from: State, events: seq<Event>) returns (more: seq<Event>)
    requires sys.Valid() && Inv(sys, from) && Exec(sys, from, events).Some? && NoBegin(events)
    requires Exec(sys, from, events).value.proc.Booting?
    ensures NoBegin(more) && Exec(sys, from, more).Some? && Exec(sys, from, more).value.proc.Running?
  {
    ExecSnoc(sys, from, events, Reconcile);
    more := events + [Reconcile];
    ExecKeepsInv(sys, from, more);
    var s := Exec(sys, from, more).value;
    if s.proc.Completing? {
      more := CompletionCompletes(sys, from, more);
    } else if s.proc.Promoting? {
      more := PromotionCompletes(sys, from, more);
    }
  }

  /** From every state a crash can leave, an undisturbed restart reaches a running process; by
      atomicity, that is the state the interrupted commit would have left, or the one before it. */
  lemma {:induction false} RecoveryCompletes(sys: System, from: State) returns (more: seq<Event>)
    requires sys.Valid() && Inv(sys, from) && from.proc.Stopped?
    ensures NoBegin(more) && Exec(sys, from, more).Some? && Exec(sys, from, more).value.proc.Running?
  {
    ExecSnoc(sys, from, [], Boot);
    more := ReconcileCompletes(sys, from, [] + [Boot]);
  }

  // ---------- the assumption on late submissions is needed ----------

  /** Without it, a submission that lands after a restart has discarded its journal leaves the
      next restart nothing to recover from: every first commit can be lost that way. */
  lemma {:induction false} LateLandingFailsClosed(sys: System, p: Prepared) returns (events: seq<Event>)
    requires sys.lateLanding && sys.initial.header.tipHeight == sys.initial.height
    requires p.next.height == sys.initial.height + 1 == p.next.header.tipHeight && sys.validates(p.next)
    requires sys.prepares(sys.initial, p)
    ensures Exec(sys, sys.Init(), events).Some? && Exec(sys, sys.Init(), events).value.proc == FailedClosed
  {
    var script := [Boot, Reconcile, Begin(p), Advance, Advance, Advance, Crash, Boot, Reconcile, Land, Crash, Boot,
        Reconcile];
    events := [];
    var s := sys.Init();
    for i := 0 to 13
      invariant events == script[..i]
      invariant Exec(sys, sys.Init(), events) == Some(s)
      invariant s == LateState(sys, p, i)
    {
      ExecSnoc(sys, sys.Init(), events, script[i]);
      events := events + [script[i]];
      s := Apply(sys, s, script[i]).value;
    }
  }

  ghost function LateState(sys: System, p: Prepared, i: nat): State
    requires i <= 13
  {
    var w0 := sys.Init().world;
    var w1 := w0.(journalKey := Some(FirstJournal(p)));
    var w2 := w1.(buffer := Some(Upload(p.next.height, p.commitment)));
    var w3 := w2.(journalKey := Some(BuffersJournal(sys, p)));
    var w4 := w3.(outstanding := Some(Update(w0.header, p.next.header)));
    var w5 := w4.(journalKey := None);
    var w6 := Landed(w5, w4.outstanding.value);
    if i == 0 then State(w0, Stopped)
    else if i == 1 then State(w0, Booting(w0.header))
    else if i == 2 then State(w0, Running(sys.initial))
    else if i == 3 then State(w1, Committing(sys.initial, p, Journaled))
    else if i == 4 then State(w2, Committing(sys.initial, p, Uploaded))
    else if i == 5 then State(w3, Committing(sys.initial, p, BuffersRecorded))
    else if i == 6 then State(w4, Committing(sys.initial, p, Submitted))
    else if i == 7 then State(w4, Stopped)
    else if i == 8 then State(w4, Booting(w0.header))
    else if i == 9 then State(w5, Running(sys.initial))
    else if i == 10 then State(w6, Running(sys.initial))
    else if i == 11 then State(w6, Stopped)
    else if i == 12 then State(w6, Booting(p.next.header))
    else State(w6, FailedClosed)
  }

  ghost predicate EndsFailedClosed(sys: System, events: seq<Event>) {
    Exec(sys, sys.Init(), events).Some? && Exec(sys, sys.Init(), events).value.proc == FailedClosed
  }

  /** Where there is something to commit, some run fails closed exactly if submissions can land
      after a restart. */
  lemma {:induction false} FailClosedCondition(sys: System, p: Prepared)
    requires sys.initial.header.tipHeight == sys.initial.height
    requires p.next.height == sys.initial.height + 1 == p.next.header.tipHeight && sys.validates(p.next)
    requires sys.prepares(sys.initial, p)
    ensures (exists events :: EndsFailedClosed(sys, events)) <==> sys.lateLanding
  {
    if sys.lateLanding {
      var events := LateLandingFailsClosed(sys, p);
      assert EndsFailedClosed(sys, events);
    } else {
      forall events | Exec(sys, sys.Init(), events).Some?
        ensures !EndsFailedClosed(sys, events)
      {
        CrashSafety(sys, events);
      }
    }
  }

  // ---------- the initial checkpoint has to stay the same ----------

  /** The first commit is interrupted once its update has landed. */
  ghost function FirstCommitLanded(p: Prepared): seq<Event> {
    [Boot, Reconcile, Begin(p), Advance, Advance, Advance, Land, Crash]
  }

  lemma {:induction false} FirstCommitCanLand(sys: System, p: Prepared)
    requires sys.initial.header.tipHeight == sys.initial.height
    requires p.next.height == sys.initial.height + 1 == p.next.header.tipHeight && sys.validates(p.next)
    requires sys.prepares(sys.initial, p)
    ensures var crashed := Exec(sys, sys.Init(), FirstCommitLanded(p));
            && crashed.Some? && crashed.value.proc == Stopped
            && var w := crashed.value.world;
            w.checkpointKey == None && w.journalKey == Some(BuffersJournal(sys, p)) && w.header == p.next.header
  {
    var script, s := FirstCommitLanded(p), sys.Init();
    var events: seq<Event> := [];
    for i := 0 to 8
      invariant events == script[..i]
      invariant Exec(sys, sys.Init(), events) == Some(s)
      invariant s == LandedState(sys, p, i)
    {
      ExecSnoc(sys, sys.Init(), events, script[i]);
      events := events + [script[i]];
      s := Apply(sys, s, script[i]).value;
    }
    assert events == script;
  }

  /** A start and its reconciliation. */
  ghost function Restarted(sys: System, s: State): Option<State> {
    var booted := Apply(sys, s, Boot);
    if booted == None then None else Apply(sys, booted.value, Reconcile)
  }

  /** A restart that derives another initial checkpoint, as it does with no start height configured
      once the finalized tip has moved, cannot recover the first commit: it fails closed exactly
      when the journal is no longer one above the new initial height. */
  lemma {:induction false} MovedStartFailsClosed(sys: System, p: Prepared, moved: Checkpoint)
    requires sys.initial.header.tipHeight == sys.initial.height && moved.header == sys.initial.header
    requires p.next.height == sys.initial.height + 1 == p.next.header.tipHeight && sys.validates(p.next)
    requires sys.prepares(sys.initial, p)
    ensures var crashed := Exec(sys, sys.Init(), FirstCommitLanded(p));
            && crashed.Some? && crashed.value.proc == Stopped && crashed.value.world.header == p.next.header
            && var restarted := Restarted(sys.(initial := moved), crashed.value);
            && restarted.Some?
            && (restarted.value.proc == FailedClosed <==> Min(moved.height + 1, U32_MAX) != sys.initial.height + 1)
  {
    FirstCommitCanLand(sys, p);
  }

  ghost function LandedState(sys: System, p: Prepared, i: nat): State
    requires i <= 8
  {
    if i <= 6 then LateState(sys, p, i)
    else
      var w := LateState(sys, p, 6).world;
      var landed := Landed(w, Update(sys.initial.header, p.next.header));
      State(landed, if i == 7 then Committing(sys.initial, p, Submitted) else Stopped)
  }
}
