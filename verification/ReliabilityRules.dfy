/** The reliability wrapper's decisions, read off their inputs: which errors are retried,
    what usage costs, and when exactly a limit refuses a call. */
module ReliabilityRules {
  import opened Prelude
  import opened Reliability
  import opened BudgetLedger
  import opened RetryLoop
  import Breaks = CircuitBreaker
  import Rate = RateLimiter

  // ----- configuration

  /** A limit counts only when both of its halves are set, and valid settings are kept. */
  lemma {:induction false} NormalizedConfig(c: Config)
    ensures var n := Normalize(c);
      && n.maxAttempts >= 1 && (c.maxAttempts >= 1 ==> n.maxAttempts == c.maxAttempts)
      && (if c.rateLimit >= 1 && c.rateInterval > 0 then n.rateLimit == c.rateLimit && n.rateInterval == c.rateInterval
          else n.rateLimit == 0)
      && (if c.failureThreshold >= 1 && c.cooldown > 0 then n.failureThreshold == c.failureThreshold && n.cooldown == c.cooldown
          else n.failureThreshold == 0)
      && (c.maxTokens >= 1 ==> n.maxTokens == c.maxTokens) && (c.maxTokens < 1 ==> n.maxTokens == 0)
      && (c.maxCost > 0.0 ==> n.maxCost == c.maxCost) && (c.maxCost <= 0.0 ==> n.maxCost == 0.0)
      && 0.0 <= n.inputPrice && 0.0 <= n.outputPrice
      && (c.inputPrice >= 0.0 ==> n.inputPrice == c.inputPrice) && (c.outputPrice >= 0.0 ==> n.outputPrice == c.outputPrice)
      && Normalize(n) == n
  {
  }

  // ----- which errors are retried

  /** An ended context, a cancellation or another component's error is never retried; then
      the HTTP status decides, then the subcategory, then whether it was a timeout. */
  lemma RetryTable(ctx: Context, e: ErrorFacts)
    ensures ctx != Alive || e.canceled || e.outsideModel ==> !ShouldRetry(ctx, e)
    ensures ctx == Alive && !e.canceled && !e.outsideModel ==>
      && (e.status.Some? && (e.status.value in {408, 429} || 500 <= e.status.value < 600) ==> ShouldRetry(ctx, e))
      && (e.status.Some? && 400 <= e.status.value < 500 && e.status.value !in {408, 429} ==> !ShouldRetry(ctx, e))
      && (e.status.None? || e.status.value < 400 || e.status.value >= 600 ==>
        && (e.subcategory in {Some(Timeout), Some(RateLimited), Some(ServerError)} ==> ShouldRetry(ctx, e))
        && (e.subcategory in {Some(Auth), Some(BadRequest), Some(DecodeError)} ==> !ShouldRetry(ctx, e))
        && (e.subcategory in {None, Some(OtherSubcategory)} ==> (ShouldRetry(ctx, e) <==> e.deadline || e.timeout)))
  {
  }

  /** The circuit counts what would be retried under a living context, unless the caller's
      own context is what failed. */
  lemma CircuitTable(ctx: Context, e: ErrorFacts)
    ensures CountsAgainstCircuit(ctx, e)
      <==> ShouldRetry(Alive, e) && !(ctx == Canceled && e.canceled) && !(ctx == DeadlineExceeded && e.deadline)
  {
  }

  // ----- what usage costs

  predicate Priced(c: Config) { c.inputPrice >= 0.0 && c.outputPrice >= 0.0 }

  function AtLeastZero(n: int): real { if n > 0 then n as real else 0.0 }

  /** Reported input and output are each charged at their own price; a bare total is
      charged at the dearer of the two. Prices are per thousand tokens. */
  lemma UsageIsPriced(c: Config, u: Usage)
    requires Priced(c)
    ensures u.input > 0 || u.output > 0 ==>
      UsageCost(c, u) * 1000.0 == AtLeastZero(u.input) * c.inputPrice + AtLeastZero(u.output) * c.outputPrice
    ensures u.input <= 0 && u.output <= 0 && c.inputPrice >= c.outputPrice ==>
      UsageCost(c, u) * 1000.0 == AtLeastZero(u.total) * c.inputPrice
    ensures u.input <= 0 && u.output <= 0 && c.inputPrice <= c.outputPrice ==>
      UsageCost(c, u) * 1000.0 == AtLeastZero(u.total) * c.outputPrice
  {
    TokensArePriced(u.input, c.inputPrice);
    TokensArePriced(u.output, c.outputPrice);
    TokensArePriced(u.total, c.inputPrice);
    TokensArePriced(u.total, c.outputPrice);
    hide PricePer1K;
  }

  lemma TokensArePriced(tokens: int, price: real)
    requires price >= 0.0
    ensures PricePer1K(tokens, price) * 1000.0 == AtLeastZero(tokens) * price
  {
    if tokens > 0 && price > 0.0 {
      var whole := tokens as real * price;
      assert whole / 1000.0 * 1000.0 == whole;
    }
  }

  /** A call is charged what it reports: its total, or else what input and output add up
      to, or else its estimate; and a cost of zero leaves the estimated cost. */
  lemma ChargedAsReported(c: Config, estimate: Amount, u: Usage)
    ensures var actual := Actual(c, estimate, u);
      && (u.total > 0 ==> actual.tokens == u.total)
      && (u.total <= 0 && u.input > 0 && u.output > 0 ==> actual.tokens == u.input + u.output)
      && (u.total <= 0 && u.input > 0 && u.output <= 0 ==> actual.tokens == u.input)
      && (u.total <= 0 && u.input <= 0 && u.output > 0 ==> actual.tokens == u.output)
      && (u.total <= 0 && u.input <= 0 && u.output <= 0 ==> actual.tokens == estimate.tokens)
      && actual.cost == if UsageCost(c, u) == 0.0 then estimate.cost else UsageCost(c, u)
  {
    hide UsageCost;
  }

  /** A call that reports just the input it was estimated at costs just its estimate. */
  lemma EstimateIsExactForInput(c: Config, tokens: nat)
    requires Priced(c)
    ensures Actual(c, Estimate(c, tokens), Usage(tokens, 0, tokens)) == Estimate(c, tokens)
    ensures Estimate(c, tokens).tokens == tokens && Estimate(c, tokens).cost * 1000.0 == AtLeastZero(tokens) * c.inputPrice
  {
    TokensArePriced(tokens, c.inputPrice);
  }

  // ----- when exactly a limit refuses

  /** A reservation is refused exactly when it would take an active budget over a limit;
      an accepted one is charged its estimate, and without a budget nothing is recorded. */
  lemma ReservedExactly(c: Config, b: Books, tokens: int)
    requires Priced(c)
    ensures var n := if tokens > 0 then tokens else 0; var estimate := Estimate(c, tokens);
      && estimate.tokens == n && estimate.cost * 1000.0 == n as real * c.inputPrice
      && (Fits(c, b.used, estimate) <==>
        && (c.maxTokens > 0 ==> b.used.tokens + n <= c.maxTokens)
        && (c.maxCost > 0.0 ==> b.used.cost + estimate.cost <= c.maxCost + 0.000000001))
      && ReserveIn(c, b, tokens) ==
        if (c.maxTokens <= 0 && c.maxCost <= 0.0) || !Fits(c, b.used, estimate) then b
        else Books(Amount(b.used.tokens + n, b.used.cost + estimate.cost), b.entries + [Entry(estimate, InFlight)])
  {
    TokensArePriced(Positive(tokens), c.inputPrice);
    hide PricePer1K;
  }

  /** A request is turned away only while a window stands that has admitted its full number. */
  lemma {:induction false} RefusedOnlyWhenFull(c: Config, times: seq<Time>, n: nat)
    requires Rate.Limiting(c) && n < |times|
    ensures var r, r' := Rate.After(c, times, n), Rate.After(c, times, n + 1);
      || (|r'.admitted| == |r.admitted| + 1 && r'.admitted[..|r.admitted|] == r.admitted && r'.admitted[|r.admitted|].time == times[n])
      || (r'.admitted == r.admitted && r.window.start.Some? && times[n] - r.window.start.value < c.rateInterval
          && |Rate.FromWindow(r.admitted, r.window.start.value)| == c.rateLimit)
  {
    var r := Rate.After(c, times, n);
    Rate.StaysGrouped(c, times, n);
    if !RateAllows(c, r.window, times[n]) {
      var a, start := r.admitted, r.window.start.value;
      assert r.window.requests == c.rateLimit;
      LastOnes(|a| - c.rateLimit, |a|);
      assert Rate.FromWindow(a, start) == Between(|a| - c.rateLimit, |a|);
    }
  }

  ghost function Between(low: nat, high: nat): set<nat>
    requires low <= high
  {
    if low == high then {} else Between(low, high - 1) + {high - 1}
  }

  lemma {:induction false} LastOnes(low: nat, high: nat)
    requires low <= high
    ensures |Between(low, high)| == high - low
    ensures forall i: nat :: i in Between(low, high) <==> low <= i < high
    decreases high
  {
    if low < high {
      LastOnes(low, high - 1);
    }
  }

  /** The circuit is open exactly while its cooldown lasts after enough failures in a row. */
  lemma {:induction false} OpenExactly(c: Config, steps: seq<Breaks.Step>, n: nat, now: Time)
    requires Breaks.Guarded(c) && n <= |steps|
    ensures IsOpen(c, Breaks.After(c, steps, n), now)
      <==> Breaks.FailuresSince(c, steps, n) >= c.failureThreshold && now < Breaks.LatestFailure(steps, n) + c.cooldown
  {
    Breaks.BreakerCountsFailures(c, steps, n);
  }

  /** The checks before an attempt, in their order: the circuit, the budget, the rate. */
  lemma ChecksInOrder(c: Config, s: Wrapper, a: Attempt, tokens: int, n: int)
    requires c.rateLimit >= 0
    ensures var t1 := s.clock + a.untilCheck; var t2 := t1 + a.untilRate;
      Begin(c, s, a, tokens, n).1 ==
        if c.failureThreshold != 0 && s.breaker.openUntil.Some? && t1 < s.breaker.openUntil.value then CircuitRejected(n)
        else if !Fits(c, s.books.used, Estimate(c, tokens)) then BudgetRejected(n)
        else if c.rateLimit != 0 && s.window.start.Some? && t2 - s.window.start.value < c.rateInterval && s.window.requests >= c.rateLimit
          then RateRejected(n)
        else AttemptStart(n)
  {
    hide Fits, Estimate, ReserveIn, ReleaseIn;
  }

  /** A completed attempt closes the circuit; one that finally fails is counted, and with
      it the time, exactly when its error is the model's. Otherwise the circuit stays. */
  lemma EndingsAreRecorded(c: Config, s: Wrapper, op: Operation, a: Attempt, tokens: int, n: int)
    requires Breaks.Guarded(c) && a.before.Alive? && Begin(c, s, a, tokens, n).1 == AttemptStart(n)
    ensures var s1 := Begin(c, s, a, tokens, n).0;
      match Try(c, s, op, a, tokens, n)
      case Retries(s') =>
        a.result.Erred? && n < c.maxAttempts && ShouldRetry(a.after, a.result.error) && s'.breaker == s1.breaker
      case Ends(t) =>
        && (a.result.Completed? ==> t.state.breaker == Breaker(0, None))
        && (a.result.Erred? && n < c.maxAttempts && ShouldRetry(a.after, a.result.error) ==> a.sleepFails && t.state.breaker == s1.breaker)
        && (a.result.Erred? && !(n < c.maxAttempts && ShouldRetry(a.after, a.result.error)) ==>
          t.state.breaker ==
            if CountsAgainstCircuit(a.after, a.result.error) then Breaks.Next(c, s1.breaker, Breaks.Failure(s1.clock + a.callTakes))
            else s1.breaker)
  {
    hide Begin, ShouldRetry, CountsAgainstCircuit, ReconcileIn;
  }

  // ----- how often a call is tried

  /** Nothing refuses an attempt and every context lives. */
  ghost predicate Unlimited(c: Config, script: int -> Attempt) {
    && c.rateLimit == 0 && c.failureThreshold == 0 && c.maxTokens <= 0 && c.maxCost <= 0.0
    && forall k :: script(k).before.Alive? && !script(k).sleepFails
  }

  /** Attempt k decides the call: it completes, fails for good, or is the last one. */
  predicate Decides(c: Config, script: int -> Attempt, k: int) {
    script(k).result.Completed? || k >= c.maxAttempts || !ShouldRetry(script(k).after, script(k).result.error)
  }

  lemma UnlimitedTry(c: Config, s: Wrapper, op: Operation, script: int -> Attempt, tokens: int, n: int)
    requires Unlimited(c, script)
    ensures if Decides(c, script, n) then
        Try(c, s, op, script(n), tokens, n).Ends? && var events := Try(c, s, op, script(n), tokens, n).trace.events;
        EndsShape(events, n) && Starts(events) == 1
        && events[|events| - 1] == if script(n).result.Completed? then Succeeded(n) else FinalFailure(n)
      else Try(c, s, op, script(n), tokens, n).Retries?
  {
    hide ShouldRetry, CountsAgainstCircuit, ReconcileIn, ReserveIn, Estimate, Starts;
    assert Begin(c, s, script(n), tokens, n).1 == AttemptStart(n);
    if Decides(c, script, n) {
      StartsOfEnding(Try(c, s, op, script(n), tokens, n).trace.events, n);
    }
  }

  /** Without limits in the way a call is tried until an attempt completes, fails for good
      or is the last one allowed: not once less, not once more. */
  lemma {:induction false} TriedUntilDecided(
    c: Config, s: Wrapper, op: Operation, script: int -> Attempt, tokens: int, n: int, k: int)
    requires Unlimited(c, script) && n <= k && Decides(c, script, k)
    requires forall j :: n <= j < k ==> !Decides(c, script, j)
    ensures var events := Attempts(c, s, op, script, tokens, n).events;
      && Starts(events) == k - n + 1
      && events != [] && events[|events| - 1] == if script(k).result.Completed? then Succeeded(k) else FinalFailure(k)
    decreases k - n
  {
    hide Try, Unlimited, Decides, EndsShape, Starts;
    UnlimitedTry(c, s, op, script, tokens, n);
    TryIsWellShaped(c, s, op, script(n), tokens, n);
    if n < k {
      assert !Decides(c, script, n);
      var s' := Try(c, s, op, script(n), tokens, n).state;
      TriedUntilDecided(c, s', op, script, tokens, n + 1, k);
      var rest := Attempts(c, s', op, script, tokens, n + 1).events;
      StartsOfRetried(n);
      StartsOfJoin(Retried(n), rest);
      assert (Retried(n) + rest)[|Retried(n) + rest| - 1] == rest[|rest| - 1];
    }
  }
}
