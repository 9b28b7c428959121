/** The bounded retry of the backend key check. Times are in milliseconds. */
module KeyRetry {
  import opened Basics

  const INITIAL_DELAY := 2_000
  const MAX_DELAY := 60_000
  const TOTAL_BUDGET := 180_000
  const MAX_ATTEMPTS := 10

  /** One verification; `retryAfter` is the parsed hint of the backend, if it gave a usable one. */
  datatype Check = Passed | Refused(retryable: bool, retryAfter: Option<int>)

  /** What attempt `i` meets: the check, and the time left before it, when it waits and when it gives up. */
  datatype Attempt = Attempt(leftBefore: nat, check: Check, leftToWait: nat, leftAtEnd: nat)

  type World = nat -> Attempt

  datatype Outcome = Verified | DeadlineReached | KeyRefused

  /** `parse_retry_after` bounds the hint. */
  function BoundedHint(hint: int): (ms: int)
    ensures 0 <= ms <= MAX_DELAY
  {
    Min(Max(hint, 0), MAX_DELAY)
  }

  /** The back-off of the `k`-th attempt. */
  function Backoff(k: nat): (ms: int)
    ensures 0 < ms <= MAX_DELAY
  {
    if k == 0 then INITIAL_DELAY else Min(Backoff(k - 1) * 2, MAX_DELAY)
  }

  /** The wait after attempt `i`: the hint if there is one, else the back-off, capped by the time left. */
  function Wait(world: World, deadline: bool, i: nat): (ms: int)
    ensures 0 <= ms <= MAX_DELAY
  {
    var attempt := world(i);
    var wait :=
      if attempt.check.Refused? && attempt.check.retryAfter.Some? then BoundedHint(attempt.check.retryAfter.value)
      else Backoff(i);
    if deadline then Min(wait, attempt.leftToWait) else wait
  }

  function Sum(s: seq<int>): int {
    if s == [] then 0 else Sum(s[..|s| - 1]) + s[|s| - 1]
  }

  /** Attempt `i` is refused and, after `slept` milliseconds of sleep, is not followed by another one. */
  predicate GivesUp(world: World, deadline: bool, i: nat, slept: int) {
    && world(i).check.Refused?
    && (|| !world(i).check.retryable
        || i + 1 >= MAX_ATTEMPTS
        || slept + Wait(world, deadline, i) > TOTAL_BUDGET
        || Wait(world, deadline, i) <= 0)
  }

  /** Attempt `i` is refused and followed by a sleep and another attempt. */
  predicate Retries(world: World, deadline: bool, i: nat, slept: int) {
    world(i).check.Refused? && !GivesUp(world, deadline, i, slept)
  }

  /** These are the sleeps of a run so far: each follows a refusal that may be retried, for exactly its wait. */
  ghost predicate Slept(world: World, deadline: bool, sleeps: seq<int>) {
    sleeps != [] ==>
      var n := |sleeps| - 1;
      && Slept(world, deadline, sleeps[..n])
      && sleeps[n] == Wait(world, deadline, n)
      && Retries(world, deadline, n, Sum(sleeps[..n]))
  }

  /** Every sleep is positive and at most a minute. */
  predicate InRange(sleeps: seq<int>) {
    forall i :: 0 <= i < |sleeps| ==> 0 < sleeps[i] <= MAX_DELAY
  }

  /** How a run may end after these sleeps and checks. */
  ghost predicate Ends(world: World, deadline: bool, outcome: Outcome, sleeps: seq<int>, checks: nat) {
    match outcome
    case Verified => checks == |sleeps| + 1 && world(checks - 1).check.Passed?
    case KeyRefused => checks == |sleeps| + 1 && GivesUp(world, deadline, checks - 1, Sum(sleeps))
    case DeadlineReached =>
      deadline &&
      if checks == |sleeps| then world(checks).leftBefore == 0
      else checks == |sleeps| + 1 && GivesUp(world, deadline, checks - 1, Sum(sleeps)) && world(checks - 1).leftAtEnd == 0
  }

  /**
   `_require_backend_key`, for every sequence of outcomes and hints: `checks` verifications were made
   and `sleeps` is what was slept between them.
   */
  method RequireBackendKey(world: World, deadline: bool) returns (outcome: Outcome, sleeps: seq<int>, checks: nat)
    // bounded work
    ensures checks <= MAX_ATTEMPTS && Sum(sleeps) <= TOTAL_BUDGET && InRange(sleeps)
    // a sleep follows only a refusal that may be retried
    ensures Slept(world, deadline, sleeps)
    // it returns only after a successful check, fails only where it gives up, and otherwise ran out of time
    ensures Ends(world, deadline, outcome, sleeps, checks)
  {
    var elapsed, delay := 0, INITIAL_DELAY;
    sleeps, checks := [], 0;
    while true
      invariant elapsed == Sum(sleeps) <= TOTAL_BUDGET && InRange(sleeps) && Slept(world, deadline, sleeps)
      invariant |sleeps| == checks < MAX_ATTEMPTS && delay == Backoff(checks)
      decreases MAX_ATTEMPTS - checks
    {
      var attempt := world(checks);
      if deadline && attempt.leftBefore <= 0 {
        return DeadlineReached, sleeps, checks;
      }
      checks := checks + 1;
      if attempt.check.Passed? {
        return Verified, sleeps, checks;
      }
      var wait :=
        if attempt.check.retryAfter.Some? then BoundedHint(attempt.check.retryAfter.value) else Min(delay, MAX_DELAY);
      if deadline {
        wait := Min(Max(wait, 0), attempt.leftToWait);
      }
      assert wait == Wait(world, deadline, checks - 1);
      if !attempt.check.retryable || checks >= MAX_ATTEMPTS || elapsed + wait > TOTAL_BUDGET || wait <= 0 {
        return if deadline && attempt.leftAtEnd <= 0 then DeadlineReached else KeyRefused, sleeps, checks;
      }
      SleptOn(world, deadline, sleeps, wait);
      sleeps := sleeps + [wait];
      elapsed := elapsed + wait;
      delay := Min(delay * 2, MAX_DELAY);
    }
  }

  /** One more sleep. */
  lemma SleptOn(world: World, deadline: bool, sleeps: seq<int>, wait: int)
    requires Slept(world, deadline, sleeps) && InRange(sleeps)
    requires wait == Wait(world, deadline, |sleeps|) && Retries(world, deadline, |sleeps|, Sum(sleeps))
    ensures Slept(world, deadline, sleeps + [wait]) && InRange(sleeps + [wait])
    ensures Sum(sleeps + [wait]) == Sum(sleeps) + wait
  {
    assert (sleeps + [wait])[..|sleeps|] == sleeps;
  }

  // ---- How long a sleep is

  function Pow2(k: nat): nat {
    if k == 0 then 1 else 2 * Pow2(k - 1)
  }

  lemma {:induction false} BackoffIs(k: nat)
    ensures Backoff(k) == Min(2_000 * Pow2(k), 60_000)
  {
    if k > 0 {
      BackoffIs(k - 1);
    }
  }

  /**
   Each sleep is as long as the backend asked for, up to a minute, or two seconds doubled for every attempt before,
   up to a minute; and never longer than the time left.
   */
  lemma SleepsExactly(world: World, deadline: bool, sleeps: seq<int>, k: nat)
    requires Slept(world, deadline, sleeps) && k < |sleeps|
    ensures world(k).check.Refused? && world(k).check.retryable
    ensures
      var hint := world(k).check.retryAfter;
      var wait := if hint.Some? then Min(Max(hint.value, 0), 60_000) else Min(2_000 * Pow2(k), 60_000);
      sleeps[k] == if deadline then Min(wait, world(k).leftToWait) else wait
    decreases |sleeps|
  {
    BackoffIs(k);
    if k < |sleeps| - 1 {
      SleepsExactly(world, deadline, sleeps[..|sleeps| - 1], k);
    }
  }

  // ---- Without hints and without a deadline

  /** What the first `k` plain back-offs add up to. */
  function BackoffTotal(k: nat): int {
    if k == 0 then 0 else BackoffTotal(k - 1) + Backoff(k - 1)
  }

  lemma {:induction false} SleptTotal(world: World, sleeps: seq<int>)
    requires forall i: nat :: world(i).check.Refused? ==> world(i).check.retryAfter.None?
    requires Slept(world, false, sleeps)
    ensures Sum(sleeps) == BackoffTotal(|sleeps|)
  {
    if sleeps != [] {
      SleptTotal(world, sleeps[..|sleeps| - 1]);
    }
  }

  lemma {:induction false} BackoffTotalGrows(k: nat)
    requires k >= 7
    ensures BackoffTotal(k) >= 182_000
  {
    if k == 7 {
      assert Backoff(1) == 4_000 && Backoff(2) == 8_000 && Backoff(3) == 16_000;
      assert Backoff(4) == 32_000 && Backoff(5) == 60_000 && Backoff(6) == 60_000;
      assert BackoffTotal(1) == 2_000 && BackoffTotal(2) == 6_000 && BackoffTotal(3) == 14_000;
      assert BackoffTotal(4) == 30_000 && BackoffTotal(5) == 62_000 && BackoffTotal(6) == 122_000;
    } else {
      BackoffTotalGrows(k - 1);
    }
  }

  /** With no hint and no deadline a run makes at most seven checks, however it ends. */
  lemma AtMostSevenPlainAttempts(world: World, outcome: Outcome, sleeps: seq<int>, checks: nat)
    requires forall i: nat :: world(i).check.Refused? ==> world(i).check.retryAfter.None?
    requires Slept(world, false, sleeps) && Sum(sleeps) <= TOTAL_BUDGET && Ends(world, false, outcome, sleeps, checks)
    ensures checks <= 7
  {
    SleptTotal(world, sleeps);
    if |sleeps| >= 7 {
      BackoffTotalGrows(|sleeps|);
    }
  }
}
