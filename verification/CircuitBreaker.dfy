/** What the breaker's two fields mean over any run, and what that gives one caller. */
module CircuitBreaker {
  import opened Prelude
  import opened Reliability

  predicate Guarded(c: Config) { c.failureThreshold >= 1 && c.cooldown > 0 }

  // ----- any interleaving of checks, successes and counted failures

  datatype Step = Check(now: Time) | Success | Failure(now: Time)

  function Next(c: Config, b: Breaker, step: Step): Breaker {
    match step
    case Check(now) => AfterCheck(c, b, now)
    case Success => AfterSuccess(c, b)
    case Failure(now) => AfterFailure(c, b, now)
  }

  /** The breaker after the first n steps. */
  function After(c: Config, steps: seq<Step>, n: nat): Breaker
    requires n <= |steps|
  {
    if n == 0 then Breaker(0, None) else Next(c, After(c, steps, n - 1), steps[n - 1])
  }

  /** The reading a user has of the breaker: failures since the last success or expiry,
      and the time of the latest of them. A check expires the circuit once the count
      has reached the threshold and the cooldown of the latest failure is over. */
  function FailuresSince(c: Config, steps: seq<Step>, n: nat): nat
    requires n <= |steps|
    decreases n, 0
  {
    if n == 0 then 0 else
    match steps[n - 1]
    case Success => 0
    case Failure(_) => FailuresSince(c, steps, n - 1) + 1
    case Check(now) => if Expires(c, steps, n - 1, now) then 0 else FailuresSince(c, steps, n - 1)
  }

  predicate Expires(c: Config, steps: seq<Step>, n: nat, now: Time)
    requires n <= |steps|
    decreases n, 1
  {
    FailuresSince(c, steps, n) >= c.failureThreshold && now >= LatestFailure(steps, n) + c.cooldown
  }

  function LatestFailure(steps: seq<Step>, n: nat): Time
    requires n <= |steps|
  {
    if n == 0 then 0 else if steps[n - 1].Failure? then steps[n - 1].now else LatestFailure(steps, n - 1)
  }

  /** circuitFailures is that count, and circuitOpenedUntil is set exactly when the count
      has reached the threshold, to the end of the latest failure's cooldown. */
  lemma {:induction false} BreakerCountsFailures(c: Config, steps: seq<Step>, n: nat)
    requires Guarded(c) && n <= |steps|
    ensures var (b, count) := (After(c, steps, n), FailuresSince(c, steps, n));
      && b.failures == count
      && b.openUntil == if count >= c.failureThreshold then Some(LatestFailure(steps, n) + c.cooldown) else None
  {
    if n > 0 {
      BreakerCountsFailures(c, steps, n - 1);
    }
  }
}
