/** The retry loop around network calls, with its attempt cap and its overall wall-clock deadline
    (`qed_dsol_ibc_node_common/src/network_retry.rs`).

    The world the loop runs against is a script: what each attempt answers, how long it takes, and
    by how much the sleep after it overshoots. Times count nanoseconds since the loop started. */
module NetworkRetry {
  import opened Wrappers
  import opened MachineInts

  const NANOS_PER_MILLI: nat := 1_000_000
  const NANOS_PER_SEC: nat := 1_000_000_000
  const DURATION_MAX: nat := U64_MAX * NANOS_PER_SEC + (NANOS_PER_SEC - 1)

  type Duration = d: nat | d <= DURATION_MAX

  function SaturatingDouble(d: Duration): Duration { Min(2 * d, DURATION_MAX) }

  datatype RetryAction<+T, +E> = Success(value: T) | Retry(transient: E) | Fatal(error: E)

  datatype Attempt<+T, +E> = Attempt(action: RetryAction<T, E>, took: nat, overslept: nat)

  datatype NetworkRetryPolicy = Policy(
    requestTimeout: Duration,
    initialDelay: Duration,
    maxDelay: Duration,
    overallDeadline: Option<Duration>,
    maxAttempts: Option<u64>)
  {
    function WithOverallDeadline(deadline: Duration): NetworkRetryPolicy {
      this.(overallDeadline := Some(deadline))
    }

    function WithMaxAttempts(cap: u64): NetworkRetryPolicy {
      this.(maxAttempts := Some(cap))
    }

    predicate IsBounded() { overallDeadline.Some? && maxAttempts.Some? }
  }

  function NewPolicy(requestTimeout: Duration, initialDelay: Duration, maxDelay: Duration): NetworkRetryPolicy {
    Policy(requestTimeout, initialDelay, maxDelay, None, None)
  }

  function DefaultPolicy(): NetworkRetryPolicy {
    NewPolicy(15 * NANOS_PER_SEC, 500 * NANOS_PER_MILLI, 10 * NANOS_PER_SEC)
      .WithOverallDeadline(600 * NANOS_PER_SEC)
      .WithMaxAttempts(20)
  }

  // ----- what a run does, attempt by attempt (attempts count from zero)

  /** The backoff planned after attempt `k`, before it is clamped to the remaining budget. */
  function Delay(p: NetworkRetryPolicy, k: nat): Duration {
    if k == 0 then p.initialDelay else Min(SaturatingDouble(Delay(p, k - 1)), p.maxDelay)
  }

  function StartedAt<T, E>(p: NetworkRetryPolicy, script: seq<Attempt<T, E>>, k: nat): nat
    requires k <= |script|
    decreases k, 0
  {
    if k == 0 then 0
    else FinishedAt(p, script, k - 1) + SleepAfter(p, script, k - 1) + script[k - 1].overslept
  }

  function FinishedAt<T, E>(p: NetworkRetryPolicy, script: seq<Attempt<T, E>>, k: nat): nat
    requires k < |script|
    decreases k, 1
  {
    StartedAt(p, script, k) + script[k].took
  }

  function SleepAfter<T, E>(p: NetworkRetryPolicy, script: seq<Attempt<T, E>>, k: nat): nat
    requires k < |script|
    decreases k, 2
  {
    match p.overallDeadline
    case None => Delay(p, k)
    case Some(deadline) =>
      var elapsed := FinishedAt(p, script, k);
      if elapsed >= deadline then 0 else Min(Delay(p, k), deadline - elapsed)
  }

  /** Attempt `k` is followed by another one: it failed transiently and neither bound is reached. */
  predicate Continues<T, E>(p: NetworkRetryPolicy, script: seq<Attempt<T, E>>, k: nat)
    requires k < |script|
  {
    && script[k].action.Retry?
    && (p.maxAttempts.Some? ==> k + 1 < p.maxAttempts.value)
    && (p.overallDeadline.Some? ==> FinishedAt(p, script, k) < p.overallDeadline.value)
  }

  predicate AllContinue<T, E>(p: NetworkRetryPolicy, script: seq<Attempt<T, E>>, n: nat)
    requires n <= |script|
  {
    forall k :: 0 <= k < n ==> Continues(p, script, k)
  }

  function TotalSleep<T, E>(p: NetworkRetryPolicy, script: seq<Attempt<T, E>>, n: nat): nat
    requires n <= |script|
  {
    if n == 0 then 0 else TotalSleep(p, script, n - 1) + SleepAfter(p, script, n - 1)
  }

  // ----- the same, as the clock shows it

  /** The time at the end of attempt `k`, by what the attempts took and what was slept in between. */
  function Elapsed<T, E>(script: seq<Attempt<T, E>>, sleeps: seq<nat>, k: nat): nat
    requires k < |script| && k <= |sleeps|
  {
    (if k == 0 then 0 else Elapsed(script, sleeps, k - 1) + sleeps[k - 1] + script[k - 1].overslept) + script[k].took
  }

  /** A delay, doubled `k` times. */
  function Doubled(d: nat, k: nat): nat {
    if k == 0 then d else 2 * Doubled(d, k - 1)
  }

  /** After attempt `k` the loop goes on: the attempt failed transiently and was not the last one
      allowed, the deadline has not come, and the sleep is the initial delay, doubled `k` times up to
      the maximum (the first one is not capped), but not beyond the deadline. */
  ghost predicate GoesOn<T, E>(p: NetworkRetryPolicy, script: seq<Attempt<T, E>>, sleeps: seq<nat>, k: nat)
    requires k < |script| && k < |sleeps|
  {
    var backoff := if k == 0 then p.initialDelay else Min(Doubled(p.initialDelay, k), p.maxDelay);
    && script[k].action.Retry?
    && (p.maxAttempts.Some? ==> k + 1 < p.maxAttempts.value)
    && match p.overallDeadline
       case None => sleeps[k] == backoff
       case Some(deadline) =>
         && Elapsed(script, sleeps, k) < deadline
         && sleeps[k] == Min(backoff, deadline - Elapsed(script, sleeps, k))
  }

  /** After attempt `k` the loop is over: it did not fail transiently, or was the last one allowed, or
      the deadline has come. */
  ghost predicate IsOver<T, E>(p: NetworkRetryPolicy, script: seq<Attempt<T, E>>, sleeps: seq<nat>, k: nat)
    requires k < |script| && k <= |sleeps|
  {
    || !script[k].action.Retry?
    || (p.maxAttempts.Some? && k + 1 >= p.maxAttempts.value)
    || (p.overallDeadline.Some? && Elapsed(script, sleeps, k) >= p.overallDeadline.value)
  }

  ghost predicate SleepsOf<T, E>(p: NetworkRetryPolicy, script: seq<Attempt<T, E>>, sleeps: seq<nat>) {
    && |sleeps| <= |script|
    && forall k {:trigger sleeps[k]} :: 0 <= k < |sleeps| ==> sleeps[k] == SleepAfter(p, script, k)
  }

  lemma {:induction false} ElapsedIsFinishedAt<T, E>(
    p: NetworkRetryPolicy, script: seq<Attempt<T, E>>, sleeps: seq<nat>, k: nat)
    requires SleepsOf(p, script, sleeps) && k < |script| && k <= |sleeps|
    ensures Elapsed(script, sleeps, k) == FinishedAt(p, script, k)
  {
    if k > 0 {
      ElapsedIsFinishedAt(p, script, sleeps, k - 1);
      assert sleeps[k - 1] == SleepAfter(p, script, k - 1);
    }
  }

  /** Where the attempts continue, the loop goes on as the policy says; where they do not, it is over. */
  lemma {:induction false} ContinuesMeaning<T, E>(
    p: NetworkRetryPolicy, script: seq<Attempt<T, E>>, sleeps: seq<nat>, k: nat)
    requires SleepsOf(p, script, sleeps) && k < |script| && k <= |sleeps|
    ensures Continues(p, script, k) <==> !IsOver(p, script, sleeps, k)
    ensures k < |sleeps| && Continues(p, script, k) ==> GoesOn(p, script, sleeps, k)
  {
    ElapsedIsFinishedAt(p, script, sleeps, k);
    if k > 0 {
      DelayIsCappedDoubling(p, k);
    }
    if k < |sleeps| {
      assert sleeps[k] == SleepAfter(p, script, k);
    }
  }

  lemma {:induction false} RunMeaning<T, E>(
    p: NetworkRetryPolicy, script: seq<Attempt<T, E>>, sleeps: seq<nat>, made: nat)
    requires SleepsOf(p, script, sleeps) && |sleeps| <= made <= |script| && AllContinue(p, script, |sleeps|)
    requires made > |sleeps| ==> made == |sleeps| + 1 && !Continues(p, script, made - 1)
    ensures forall k :: 0 <= k < |sleeps| ==> GoesOn(p, script, sleeps, k)
    ensures made > |sleeps| ==> IsOver(p, script, sleeps, made - 1)
  {
    forall k | 0 <= k < |sleeps|
      ensures GoesOn(p, script, sleeps, k)
    {
      assert Continues(p, script, k);
      ContinuesMeaning(p, script, sleeps, k);
    }
    if made > |sleeps| {
      ContinuesMeaning(p, script, sleeps, made - 1);
    }
  }

  // ----- the loop

  /** Runs the loop against a script. `made` attempts are made; `None` means that the script ended
      while the loop still had to go on. The loop stops at the first attempt that succeeds, fails
      for good or meets a bound, and answers with that attempt's value or error; `sleeps` are the
      durations it handed to the timer, one for each attempt that another follows. */
  method Run<T, E>(p: NetworkRetryPolicy, script: seq<Attempt<T, E>>)
    returns (outcome: Option<Result<T, E>>, made: nat, sleeps: seq<nat>)
    ensures outcome.None? ==> made == |script| && AllContinue(p, script, made)
    ensures outcome.Some? ==>
      && 1 <= made <= |script|
      && AllContinue(p, script, made - 1)
      && !Continues(p, script, made - 1)
      && outcome.value == match script[made - 1].action {
          case Success(value) => Ok(value)
          case Retry(error) => Err(error)
          case Fatal(error) => Err(error)
        }
    ensures |sleeps| == if outcome.Some? then made - 1 else made
    ensures made <= |script| && SleepsOf(p, script, sleeps)
    ensures forall k :: 0 <= k < |sleeps| ==> GoesOn(p, script, sleeps, k)
    ensures outcome.Some? ==> IsOver(p, script, sleeps, made - 1)
  {
    var attempt: u64 := 1;
    var delay := p.initialDelay;
    var now := 0;
    made, sleeps := 0, [];
    while made < |script|
      invariant made <= |script|
      invariant attempt == Min(made + 1, U64_MAX)
      invariant delay == Delay(p, made)
      invariant now == StartedAt(p, script, made)
      invariant AllContinue(p, script, made)
      invariant |sleeps| == made && SleepsOf(p, script, sleeps)
    {
      var current := script[made];
      now := now + current.took;
      made := made + 1;
      match current.action {
        case Success(value) =>
          RunMeaning(p, script, sleeps, made);
          return Some(Ok(value)), made, sleeps;
        case Fatal(error) =>
          RunMeaning(p, script, sleeps, made);
          return Some(Err(error)), made, sleeps;
        case Retry(error) =>
          if p.maxAttempts.Some? && attempt >= p.maxAttempts.value {
            RunMeaning(p, script, sleeps, made);
            return Some(Err(error)), made, sleeps;
          }
          var sleepDuration := delay;
          if p.overallDeadline.Some? {
            if now >= p.overallDeadline.value {
              RunMeaning(p, script, sleeps, made);
              return Some(Err(error)), made, sleeps;
            }
            sleepDuration := Min(delay, p.overallDeadline.value - now);
          }
          sleeps := sleeps + [sleepDuration];
          now := now + sleepDuration + current.overslept;
          attempt := Min(attempt + 1, U64_MAX);
          delay := Min(SaturatingDouble(delay), p.maxDelay);
      }
    }
    RunMeaning(p, script, sleeps, made);
    outcome := None;
  }

  // ----- the bounds

  /** Every backoff after the first is the initial delay doubled once per retry, capped; the
      saturation of the arithmetic never shows. */
  lemma {:induction false} DelayIsCappedDoubling(p: NetworkRetryPolicy, k: nat)
    requires k >= 1
    ensures Delay(p, k) == Min(Doubled(p.initialDelay, k), p.maxDelay)
  {
    if k > 1 {
      DelayIsCappedDoubling(p, k - 1);
    }
    DoublingCommutesWithCap(Doubled(p.initialDelay, k - 1), Doubled(p.initialDelay, k), p.maxDelay);
  }

  lemma DoublingCommutesWithCap(before: nat, next: nat, cap: Duration)
    requires next == 2 * before
    ensures before <= DURATION_MAX ==> Min(SaturatingDouble(before), cap) == Min(next, cap)
    ensures Min(SaturatingDouble(Min(before, cap)), cap) == Min(next, cap)
  {
  }

  /** Doubling `k` times is multiplying by `2^k`. */
  lemma {:induction false} DoubledIsProduct(d: nat, k: nat)
    ensures Doubled(d, k) == d * Pow2(k)
  {
    if k > 0 {
      DoubledIsProduct(d, k - 1);
    }
  }

  /** No backoff exceeds the maximum delay if and only if the initial one does not: it is the only one
      that the loop does not cap. */
  lemma {:induction false} BackoffCapCondition(p: NetworkRetryPolicy)
    ensures (forall k: nat :: Delay(p, k) <= p.maxDelay) <==> p.initialDelay <= p.maxDelay
  {
    if p.initialDelay > p.maxDelay {
      assert Delay(p, 0) > p.maxDelay;
    }
    forall k: nat | p.initialDelay <= p.maxDelay
      ensures Delay(p, k) <= p.maxDelay
    {
      if k > 0 {
        DelayIsCappedDoubling(p, k);
      }
    }
  }

  /** The cap bounds the attempts: the first one is always made, then at most `maxAttempts` in all. */
  lemma AttemptsWithinCap<T, E>(p: NetworkRetryPolicy, script: seq<Attempt<T, E>>, made: nat)
    requires p.maxAttempts.Some?
    requires 1 <= made <= |script| && AllContinue(p, script, made - 1)
    ensures made <= Max(1, p.maxAttempts.value)
  {
    if made >= 2 {
      assert Continues(p, script, made - 2);
    }
  }

  /** No retry starts after the deadline, but for what the timer oversleeps. */
  lemma NoRetryAfterDeadline<T, E>(p: NetworkRetryPolicy, script: seq<Attempt<T, E>>, k: nat)
    requires k < |script| && Continues(p, script, k) && p.overallDeadline.Some?
    ensures StartedAt(p, script, k + 1) <= p.overallDeadline.value + script[k].overslept
  {
    assert StartedAt(p, script, k + 1)
      == FinishedAt(p, script, k) + SleepAfter(p, script, k) + script[k].overslept;
  }

  lemma {:induction false} SleepIsPartOfTheRun<T, E>(p: NetworkRetryPolicy, script: seq<Attempt<T, E>>, n: nat)
    requires n <= |script|
    ensures TotalSleep(p, script, n) <= StartedAt(p, script, n)
  {
    if n > 0 {
      SleepIsPartOfTheRun(p, script, n - 1);
      assert StartedAt(p, script, n)
        == FinishedAt(p, script, n - 1) + SleepAfter(p, script, n - 1) + script[n - 1].overslept;
    }
  }

  /** All the sleeping asked for in a run fits the overall deadline. */
  lemma TotalSleepWithinDeadline<T, E>(p: NetworkRetryPolicy, script: seq<Attempt<T, E>>, n: nat)
    requires n <= |script| && AllContinue(p, script, n) && p.overallDeadline.Some?
    ensures TotalSleep(p, script, n) <= p.overallDeadline.value
  {
    if n > 0 {
      assert Continues(p, script, n - 1);
      SleepIsPartOfTheRun(p, script, n - 1);
    }
  }

  /** A backoff clamped by the deadline is the last one, so every retry but the last two attempts
      costs a full backoff. */
  lemma {:induction false} FullSleepsAdvanceTheClock<T, E>(
    p: NetworkRetryPolicy, script: seq<Attempt<T, E>>, n: nat)
    requires 1 <= n <= |script| && AllContinue(p, script, n) && p.overallDeadline.Some?
    ensures (n - 1) * Min(p.initialDelay, p.maxDelay) <= StartedAt(p, script, n - 1)
  {
    var least := Min(p.initialDelay, p.maxDelay);
    if n > 1 {
      FullSleepsAdvanceTheClock(p, script, n - 1);
      assert Continues(p, script, n - 1) && Continues(p, script, n - 2);
      FullSleepAdvancesTheClock(p, script, n - 2);
      OneMore(n - 2, least);
    }
  }

  lemma FullSleepAdvancesTheClock<T, E>(p: NetworkRetryPolicy, script: seq<Attempt<T, E>>, k: nat)
    requires k + 1 < |script| && Continues(p, script, k) && Continues(p, script, k + 1) && p.overallDeadline.Some?
    ensures StartedAt(p, script, k + 1) >= StartedAt(p, script, k) + Min(p.initialDelay, p.maxDelay)
  {
    DelayAtLeast(p, k);
    assert StartedAt(p, script, k + 1)
      == FinishedAt(p, script, k) + SleepAfter(p, script, k) + script[k].overslept;
  }

  lemma OneMore(m: nat, d: nat)
    ensures (m + 1) * d == m * d + d
  {
  }

  lemma {:induction false} DelayAtLeast(p: NetworkRetryPolicy, k: nat)
    ensures Delay(p, k) >= Min(p.initialDelay, p.maxDelay)
  {
    if k > 0 {
      DelayAtLeast(p, k - 1);
    }
  }

  /** With a deadline alone the number of retries is bounded by the deadline over the smallest
      backoff. */
  lemma RetriesWithinDeadline<T, E>(p: NetworkRetryPolicy, script: seq<Attempt<T, E>>, n: nat)
    requires 1 <= n <= |script| && AllContinue(p, script, n) && p.overallDeadline.Some?
    ensures (n - 1) * Min(p.initialDelay, p.maxDelay) < p.overallDeadline.value
  {
    assert Continues(p, script, n - 1);
    FullSleepsAdvanceTheClock(p, script, n);
  }

  // ----- termination, exactly

  /** Every attempt takes time, as on a wall clock. */
  ghost predicate Ticks<T, E>(script: seq<Attempt<T, E>>) {
    forall k {:trigger script[k]} :: 0 <= k < |script| ==> script[k].took > 0
  }

  /** Whatever the operation answers, the loop is over after at most `bound` attempts that take
      time. */
  ghost predicate EndsInTime<T(!new), E(!new)>(p: NetworkRetryPolicy, bound: nat) {
    forall script: seq<Attempt<T, E>> :: |script| >= bound && Ticks(script) ==> !AllContinue(p, script, bound)
  }

  ghost predicate Terminates<T(!new), E(!new)>(p: NetworkRetryPolicy) {
    exists bound: nat :: EndsInTime<T, E>(p, bound)
  }

  lemma {:induction false} TicksAdvanceTheClock<T, E>(p: NetworkRetryPolicy, script: seq<Attempt<T, E>>, n: nat)
    requires n <= |script| && Ticks(script)
    ensures StartedAt(p, script, n) >= n
  {
    if n > 0 {
      TicksAdvanceTheClock(p, script, n - 1);
      assert script[n - 1].took > 0;
      assert StartedAt(p, script, n)
        == FinishedAt(p, script, n - 1) + SleepAfter(p, script, n - 1) + script[n - 1].overslept;
    }
  }

  function TimeBound(p: NetworkRetryPolicy): nat {
    match p.maxAttempts
    case Some(cap) => Max(1, cap)
    case None => if p.overallDeadline.Some? then p.overallDeadline.value + 1 else 0
  }

  lemma {:induction false} BoundEndsInTime<T, E>(p: NetworkRetryPolicy, script: seq<Attempt<T, E>>)
    requires p.maxAttempts.Some? || p.overallDeadline.Some?
    requires |script| >= TimeBound(p) && Ticks(script)
    ensures !AllContinue(p, script, TimeBound(p))
  {
    var last := TimeBound(p) - 1;
    TicksAdvanceTheClock(p, script, last);
    assert script[last].took > 0;
    assert !Continues(p, script, last);
  }

  function Failing<T, E>(error: E, took: nat, n: nat): (script: seq<Attempt<T, E>>)
    ensures |script| == n
    ensures forall k {:trigger script[k]} :: 0 <= k < n ==> script[k] == Attempt(Retry(error), took, 0)
  {
    if n == 0 then [] else Failing(error, took, n - 1) + [Attempt(Retry(error), took, 0)]
  }

  /** The loop ends on every operation if and only if the policy has a cap or a deadline. */
  lemma {:induction false} TerminationCondition<T(!new), E(!new)>(p: NetworkRetryPolicy, error: E)
    ensures Terminates<T, E>(p) <==> p.maxAttempts.Some? || p.overallDeadline.Some?
  {
    if p.maxAttempts.Some? || p.overallDeadline.Some? {
      forall script: seq<Attempt<T, E>> | |script| >= TimeBound(p) && Ticks(script)
        ensures !AllContinue(p, script, TimeBound(p))
      {
        BoundEndsInTime(p, script);
      }
      assert EndsInTime<T, E>(p, TimeBound(p));
    } else {
      forall bound: nat
        ensures !EndsInTime<T, E>(p, bound)
      {
        var script := Failing<T, E>(error, 1, bound);
        assert Ticks(script) && AllContinue(p, script, bound);
      }
    }
  }

  // ----- a bound on the attempts, however fast they fail

  /** The loop is over after at most `bound` attempts, also if they take no time at all. */
  ghost predicate EndsWithin<T(!new), E(!new)>(p: NetworkRetryPolicy, bound: nat) {
    forall script: seq<Attempt<T, E>> :: |script| >= bound ==> !AllContinue(p, script, bound)
  }

  ghost predicate BoundsAttempts<T(!new), E(!new)>(p: NetworkRetryPolicy) {
    exists bound: nat :: EndsWithin<T, E>(p, bound)
  }

  /** What a caller can read off the policy: a cap, or a deadline that the backoffs reach. */
  predicate LimitsAttempts(p: NetworkRetryPolicy) {
    || p.maxAttempts.Some?
    || (p.overallDeadline.Some?
        && (|| (p.initialDelay > 0 && p.maxDelay > 0)
            || p.initialDelay >= p.overallDeadline.value))
  }

  function AttemptBound(p: NetworkRetryPolicy): nat {
    match p.maxAttempts
    case Some(cap) => Max(1, cap)
    case None => if p.overallDeadline.Some? then p.overallDeadline.value + 2 else 0
  }

  lemma BoundedPolicyEnds<T, E>(p: NetworkRetryPolicy, script: seq<Attempt<T, E>>)
    requires LimitsAttempts(p) && |script| >= AttemptBound(p)
    ensures !AllContinue(p, script, AttemptBound(p))
  {
    var n := AttemptBound(p);
    if p.maxAttempts.Some? {
      assert !Continues(p, script, n - 1);
    } else if p.initialDelay >= p.overallDeadline.value {
      FirstSleepMeetsDeadline(p, script);
    } else if AllContinue(p, script, n) {
      RetriesWithinDeadline(p, script, n);
      AtLeastFactor(n - 1, Min(p.initialDelay, p.maxDelay));
    }
  }

  lemma FirstSleepMeetsDeadline<T, E>(p: NetworkRetryPolicy, script: seq<Attempt<T, E>>)
    requires |script| >= 2
    requires p.overallDeadline.Some? && p.initialDelay >= p.overallDeadline.value
    ensures !Continues(p, script, 0) || !Continues(p, script, 1)
  {
    assert StartedAt(p, script, 1)
      == FinishedAt(p, script, 0) + SleepAfter(p, script, 0) + script[0].overslept;
  }

  lemma AtLeastFactor(m: nat, d: nat)
    requires d >= 1
    ensures m * d >= m
  {
    assert m * d == m * (d - 1) + m;
  }

  /** An operation that fails in no time gets any number of attempts out of any other policy. */
  lemma {:induction false} UnboundedPolicyContinues<T, E>(p: NetworkRetryPolicy, error: E, n: nat, k: nat)
    requires !LimitsAttempts(p) && k < n
    ensures Continues(p, Failing<T, E>(error, 0, n), k)
    ensures p.overallDeadline.Some? && k >= 1 ==> Delay(p, k) == 0
    ensures p.overallDeadline.Some? ==>
              StartedAt(p, Failing<T, E>(error, 0, n), k) == if k == 0 then 0 else p.initialDelay
  {
    var script := Failing<T, E>(error, 0, n);
    if k > 0 {
      UnboundedPolicyContinues<T, E>(p, error, n, k - 1);
      assert StartedAt(p, script, k)
        == FinishedAt(p, script, k - 1) + SleepAfter(p, script, k - 1) + script[k - 1].overslept;
    }
  }

  /** The policy bounds the number of attempts whatever their speed if and only if it has a cap, or
      a deadline that its own backoffs reach. */
  lemma {:induction false} AttemptBoundCondition<T(!new), E(!new)>(p: NetworkRetryPolicy, error: E)
    ensures BoundsAttempts<T, E>(p) <==> LimitsAttempts(p)
  {
    if LimitsAttempts(p) {
      forall script: seq<Attempt<T, E>> | |script| >= AttemptBound(p)
        ensures !AllContinue(p, script, AttemptBound(p))
      {
        BoundedPolicyEnds(p, script);
      }
      assert EndsWithin<T, E>(p, AttemptBound(p));
    } else {
      forall bound: nat
        ensures !EndsWithin<T, E>(p, bound)
      {
        var script := Failing<T, E>(error, 0, bound);
        forall k | 0 <= k < bound
          ensures Continues(p, script, k)
        {
          UnboundedPolicyContinues<T, E>(p, error, bound, k);
        }
        assert AllContinue(p, script, bound);
      }
    }
  }

  /** The default policy's backoffs: half a second, doubled up to eight seconds, then ten. */
  lemma {:induction false} DefaultBackoffs(k: nat)
    ensures DefaultPolicy().requestTimeout == 15_000_000_000
    ensures Delay(DefaultPolicy(), k) == if k <= 4 then Doubled(500_000_000, k) else 10_000_000_000
  {
    if k > 0 {
      DefaultBackoffs(k - 1);
      DelayIsCappedDoubling(DefaultPolicy(), k);
    }
  }

  /** A policy with both bounds ends every run, as does the default one: after at most twenty
      attempts, with at most ten minutes of sleep. */
  lemma DefaultPolicyIsBounded<T, E>(script: seq<Attempt<T, E>>, made: nat)
    requires 1 <= made <= |script| && AllContinue(DefaultPolicy(), script, made - 1)
    ensures DefaultPolicy().IsBounded() && LimitsAttempts(DefaultPolicy())
    ensures made <= 20
    ensures TotalSleep(DefaultPolicy(), script, made - 1) <= 600 * NANOS_PER_SEC
  {
    AttemptsWithinCap(DefaultPolicy(), script, made);
    TotalSleepWithinDeadline(DefaultPolicy(), script, made - 1);
  }
}
