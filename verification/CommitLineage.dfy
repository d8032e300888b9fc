/** Where the chain's state comes from: in every run of the commit protocol, what the chain has
    taken is an unbroken line of prepared transitions from the initial checkpoint, and what it may
    mint at a height is the commitment that was prepared with that height. */
module CommitLineage {
  import opened Wrappers
  import opened Checkpoints
  import opened CommitProtocol
  import opened CommitSafety

  /** The checkpoint after `k` transitions. */
  ghost function After(sys: System, line: seq<Prepared>, k: nat): Checkpoint
    requires k <= |line|
  {
    if k == 0 then sys.initial else line[k - 1].next
  }

  /** Transition `k` was prepared from the one before it, for the height after it. */
  ghost predicate Link(sys: System, line: seq<Prepared>, k: nat)
    requires k < |line|
  {
    && sys.prepares(After(sys, line, k), line[k])
    && line[k].next.height == sys.initial.height + k + 1 == line[k].next.header.tipHeight
  }

  ghost predicate Linked(sys: System, line: seq<Prepared>) {
    forall k {:trigger Link(sys, line, k)} :: 0 <= k < |line| ==> Link(sys, line, k)
  }

  /** The transition that the journal holds. */
  ghost function Held(w: World): Option<Prepared> {
    if w.journalKey == None || w.journalKey.value.commitment == None then None
    else Some(Prepared(w.journalKey.value.checkpoint, w.journalKey.value.commitment.value))
  }

  /** The line behind a world: its end is on the chain, the stored checkpoint is on it, and the
      journal holds whatever is not stored yet. */
  ghost predicate IsLine(sys: System, w: World, line: seq<Prepared>) {
    var start, stored := sys.initial.height, sys.Committed(w);
    && Linked(sys, line)
    && w.header.tipHeight == start + |line| && w.header == After(sys, line, |line|).header
    && start <= stored.height <= start + |line| && stored == After(sys, line, stored.height - start)
    && (forall h: nat {:trigger w.authorised[h]} {:trigger h in w.authorised} :: start < h <= start + |line| ==>
          h in w.authorised && w.authorised[h] == line[h - start - 1].commitment)
    && (!InSync(sys, w) ==> line != [] && Held(w) == Some(line[|line| - 1]))
  }

  lemma {:induction false} LinkedSnoc(sys: System, line: seq<Prepared>, p: Prepared)
    requires Linked(sys, line) && sys.prepares(After(sys, line, |line|), p)
    requires p.next.height == sys.initial.height + |line| + 1 == p.next.header.tipHeight
    ensures Linked(sys, line + [p])
    ensures forall k {:trigger After(sys, line + [p], k)} :: 0 <= k <= |line| ==>
              After(sys, line + [p], k) == After(sys, line, k)
  {
    forall k | 0 <= k < |line| + 1
      ensures Link(sys, line + [p], k)
    {
      assert k < |line| ==> Link(sys, line, k);
    }
  }

  /** The line grows when an update lands, by what the journal holds. */
  lemma {:induction false} LandingExtendsLine(sys: System, s: State, line: seq<Prepared>)
      returns (longer: seq<Prepared>)
    requires sys.Valid() && Inv(sys, s) && IsLine(sys, s.world, line) && s.world.outstanding.Some?
    ensures Held(s.world).Some? && longer == line + [Held(s.world).value]
    ensures IsLine(sys, Landed(s.world, s.world.outstanding.value), longer)
  {
    var w := s.world;
    var p := Held(w).value;
    longer := line + [p];
    LinkedSnoc(sys, line, p);
    var w' := Landed(w, w.outstanding.value);
    forall h: nat {:trigger w'.authorised[h]} | sys.initial.height < h <= sys.initial.height + |longer|
      ensures h in w'.authorised && w'.authorised[h] == longer[h - sys.initial.height - 1].commitment
    {
      assert h < p.next.height ==> w'.authorised[h] == w.authorised[h];
    }
    assert sys.Committed(w') == sys.Committed(w);
  }

  /** Everything else leaves it, and what the journal holds of it. */
  lemma {:induction false} LineStays(sys: System, w: World, w': World, line: seq<Prepared>)
    requires IsLine(sys, w, line)
    requires w'.header == w.header && w'.authorised == w.authorised && sys.Committed(w') == sys.Committed(w)
    requires InSync(sys, w) || Held(w') == Held(w)
    ensures IsLine(sys, w', line)
  {
    forall h: nat {:trigger w'.authorised[h]} | sys.initial.height < h <= sys.initial.height + |line|
      ensures h in w'.authorised && w'.authorised[h] == line[h - sys.initial.height - 1].commitment
    {
      assert h in w.authorised;
    }
    if !InSync(sys, w') {
      assert !InSync(sys, w);
      assert Held(w') == Held(w) == Some(line[|line| - 1]);
    }
  }

  lemma {:induction false} PromotionStaysOnLine(sys: System, w: World, line: seq<Prepared>, cp: Checkpoint)
    requires sys.Valid() && WorldOk(sys, w) && IsLine(sys, w, line) && Ahead(sys, w)
            && w.journalKey.value.checkpoint == cp
    ensures IsLine(sys, w.(checkpointKey := Some(cp)), line)
  {
    assert w.header.tipHeight == sys.Committed(w).height + 1;
    assert Held(w) == Some(line[|line| - 1]);
  }

  lemma {:induction false} RecoveryKeepsLine(sys: System, s: State, line: seq<Prepared>)
    requires sys.Valid() && Inv(sys, s) && IsLine(sys, s.world, line)
    requires AdvanceRecovery(sys, s.world, s.proc).Some?
    ensures IsLine(sys, AdvanceRecovery(sys, s.world, s.proc).value.world, line)
  {
    if s.proc.Promoting? {
      PromotionStaysOnLine(sys, s.world, line, s.proc.checkpoint);
    } else {
      LineStays(sys, s.world, AdvanceRecovery(sys, s.world, s.proc).value.world, line);
    }
  }

  lemma {:induction false} CommitKeepsLine(
    sys: System, w: World, cp: Checkpoint, p: Prepared, at: Stage, line: seq<Prepared>)
    requires sys.Valid() && Inv(sys, State(w, Committing(cp, p, at))) && IsLine(sys, w, line)
    requires AdvanceCommit(sys, w, cp, p, at).Some?
    ensures IsLine(sys, AdvanceCommit(sys, w, cp, p, at).value.world, line)
  {
    if at == ProgressRecorded {
      PromotionStaysOnLine(sys, w, line, p.next);
    } else {
      LineStays(sys, w, AdvanceCommit(sys, w, cp, p, at).value.world, line);
    }
  }

  lemma {:induction false} StepKeepsLine(sys: System, s: State, e: Event, line: seq<Prepared>)
      returns (next: seq<Prepared>)
    requires sys.Valid() && Inv(sys, s) && IsLine(sys, s.world, line) && Apply(sys, s, e).Some?
    ensures line <= next && IsLine(sys, Apply(sys, s, e).value.world, next)
  {
    next := line;
    match e
    case Land => next := LandingExtendsLine(sys, s, line);
    case Advance =>
      if s.proc.Committing? {
        CommitKeepsLine(sys, s.world, s.proc.checkpoint, s.proc.prepared, s.proc.at, line);
      } else {
        RecoveryKeepsLine(sys, s, line);
      }
    case _ => LineStays(sys, s.world, Apply(sys, s, e).value.world, line);
  }

  /** After `n` events the line has come as far as the chain. */
  ghost predicate OnLine(sys: System, events: seq<Event>, line: seq<Prepared>, n: nat)
    requires n <= |events|
  {
    var s := Exec(sys, sys.Init(), events[..n]);
    && s.Some?
    && var k := s.value.world.header.tipHeight - sys.initial.height;
    0 <= k <= |line| && IsLine(sys, s.value.world, line[..k])
  }

  /** Every run has one line: at each of its moments the world is on it, as far as the chain has
      come. */
  lemma {:induction false} LineOf(sys: System, events: seq<Event>) returns (line: seq<Prepared>)
    requires sys.Valid() && Exec(sys, sys.Init(), events).Some?
    ensures IsLine(sys, Exec(sys, sys.Init(), events).value.world, line)
    ensures forall n {:trigger OnLine(sys, events, line, n)} :: 0 <= n <= |events| ==> OnLine(sys, events, line, n)
    decreases |events|
  {
    if events == [] {
      line := [];
      LineEndsOnLine(sys, events, line);
    } else {
      var earlier, last := events[..|events| - 1], events[|events| - 1];
      var shorter := LineOf(sys, earlier);
      ReachableInv(sys, earlier);
      line := StepKeepsLine(sys, Exec(sys, sys.Init(), earlier).value, last, shorter);
      LineEndsOnLine(sys, events, line);
      forall n | 0 <= n < |events|
        ensures OnLine(sys, events, line, n)
      {
        assert OnLine(sys, earlier, shorter, n);
        LongerLine(sys, events, shorter, line, n);
      }
    }
  }

  lemma {:induction false} LineEndsOnLine(sys: System, events: seq<Event>, line: seq<Prepared>)
    requires Exec(sys, sys.Init(), events).Some? && IsLine(sys, Exec(sys, sys.Init(), events).value.world, line)
    ensures OnLine(sys, events, line, |events|)
  {
    assert events[..|events|] == events && line[..|line|] == line;
  }

  lemma {:induction false} LongerLine(sys: System, events: seq<Event>, shorter: seq<Prepared>, line: seq<Prepared>,
      n: nat)
    requires n < |events| && shorter <= line && OnLine(sys, events[..|events| - 1], shorter, n)
    ensures OnLine(sys, events, line, n)
  {
    assert events[..|events| - 1][..n] == events[..n];
    var k := Exec(sys, sys.Init(), events[..n]).value.world.header.tipHeight - sys.initial.height;
    assert line[..k] == shorter[..k];
  }
}
