/** One caller's `Generate` or `Stream` through the wrapper: the retry loop and its
    effect on the budget, the rate window and the circuit breaker. */
module RetryLoop {
  import opened Prelude
  import opened Reliability
  import opened BudgetLedger

  /** History of inner calls and circuit openings. */
  datatype Mark = CallStarted(at: Time) | CircuitOpened(until: Time)

  datatype Wrapper = Wrapper(clock: Time, books: Books, window: Window, breaker: Breaker, log: seq<Mark>)

  const FRESH := Wrapper(0, EMPTY, Window(None, 0), Breaker(0, None), [])

  datatype Operation = Generate | Stream

  datatype CallResult = Completed(usage: Usage) | Erred(error: ErrorFacts)

  /** What one attempt meets: how long things take, how the inner call ends, whether
      the caller's context has ended before, after and during the backoff. */
  datatype Attempt = Attempt(
    before: Context, untilCheck: nat, untilRate: nat,
    callTakes: nat, result: CallResult, after: Context,
    backoff: nat, sleepFails: bool)

  datatype Event =
    | AttemptStart(n: int)
    | AttemptFailure(n: int, retryable: bool)
    | RetryScheduled(n: int)
    | FinalFailure(n: int)
    | Succeeded(n: int)
    | BudgetRejected(n: int)
    | RateRejected(n: int)
    | CircuitRejected(n: int)

  // ----- beginAttempt

  /** The wrapper after the checks before attempt n, and the one event they emit. */
  function Begin(c: Config, s: Wrapper, a: Attempt, tokens: int, n: int): (Wrapper, Event) {
    var t1 := s.clock + a.untilCheck;
    if IsOpen(c, s.breaker, t1) then (s.(clock := t1), CircuitRejected(n)) else
    var s1 := s.(clock := t1, breaker := AfterCheck(c, s.breaker, t1));
    if !Fits(c, s.books.used, Estimate(c, tokens)) then (s1, BudgetRejected(n)) else
    var reserved := ReserveIn(c, s.books, tokens);
    var t2 := t1 + a.untilRate;
    var s2 := s1.(clock := t2, window := AfterRate(c, s.window, t2));
    if !RateAllows(c, s.window, t2) then
      (s2.(books := if Active(c) then ReleaseIn(reserved, |reserved.entries| - 1) else reserved), RateRejected(n))
    else (s2.(books := reserved, log := s.log + [CallStarted(t2)]), AttemptStart(n))
  }

  // ----- after the inner call

  /** A generate call reconciles at once; a stream when its done event passes. */
  function AfterCompletion(c: Config, s: Wrapper, op: Operation, usage: Usage): Wrapper {
    s.(breaker := AfterSuccess(c, s.breaker),
       books := if op.Generate? && Active(c) && s.books.entries != [] then ReconcileIn(c, s.books, |s.books.entries| - 1, usage)
                else s.books)
  }

  function AfterFinalError(c: Config, s: Wrapper, a: Attempt, e: ErrorFacts): Wrapper {
    if !CountsAgainstCircuit(a.after, e) then s else
    var b := AfterFailure(c, s.breaker, s.clock);
    s.(breaker := b, log := if b.openUntil.Some? then s.log + [CircuitOpened(b.openUntil.value)] else s.log)
  }

  datatype Trace = Trace(state: Wrapper, events: seq<Event>)

  /** One attempt either ends the call or leaves a wrapper to retry with. */
  datatype Tried = Ends(trace: Trace) | Retries(state: Wrapper)

  function Try(c: Config, s: Wrapper, op: Operation, a: Attempt, tokens: int, n: int): Tried {
    if !a.before.Alive? then Ends(Trace(s, [FinalFailure(n)])) else
    var (s1, event) := Begin(c, s, a, tokens, n);
    if !event.AttemptStart? then Ends(Trace(s1, [event])) else
    var s2 := s1.(clock := s1.clock + a.callTakes);
    match a.result
    case Completed(usage) => Ends(Trace(AfterCompletion(c, s2, op, usage), [event, Succeeded(n)]))
    case Erred(e) =>
      if !(n < c.maxAttempts && ShouldRetry(a.after, e)) then
        Ends(Trace(AfterFinalError(c, s2, a, e), [event, AttemptFailure(n, false), FinalFailure(n)]))
      else
        var s3 := s2.(clock := s2.clock + a.backoff);
        if a.sleepFails then Ends(Trace(s3, Retried(n) + [FinalFailure(n)])) else Retries(s3)
  }

  function Retried(n: int): seq<Event> { [AttemptStart(n), AttemptFailure(n, true), RetryScheduled(n)] }

  function Attempts(c: Config, s: Wrapper, op: Operation, script: int -> Attempt, tokens: int, n: int): Trace
    decreases Positive(c.maxAttempts - n)
  {
    match Try(c, s, op, script(n), tokens, n)
    case Ends(trace) => trace
    case Retries(s') =>
      var rest := Attempts(c, s', op, script, tokens, n + 1);
      Trace(rest.state, Retried(n) + rest.events)
  }

  // ----- the shape of every trace

  predicate EndsShape(events: seq<Event>, n: int) {
    || events == [FinalFailure(n)]
    || events == [CircuitRejected(n)] || events == [BudgetRejected(n)] || events == [RateRejected(n)]
    || events == [AttemptStart(n), Succeeded(n)]
    || events == [AttemptStart(n), AttemptFailure(n, false), FinalFailure(n)]
    || events == Retried(n) + [FinalFailure(n)]
  }

  /** (start, failure, retry)* then one ending, attempts numbered upwards from n. */
  predicate WellShaped(events: seq<Event>, n: int, max: int)
    decreases |events|
  {
    || EndsShape(events, n)
    || (n < max && Retried(n) <= events && WellShaped(events[3..], n + 1, max))
  }

  /** The number of attempts that started. */
  function Starts(events: seq<Event>): nat {
    if events == [] then 0 else Starts(events[1..]) + (if events[0].AttemptStart? then 1 else 0)
  }

  lemma {:induction false} StartsOfJoin(left: seq<Event>, right: seq<Event>)
    ensures Starts(left + right) == Starts(left) + Starts(right)
  {
    if left == [] {
      assert left + right == right;
    } else {
      assert (left + right)[1..] == left[1..] + right;
      StartsOfJoin(left[1..], right);
    }
  }

  lemma {:induction false} NoStarts(events: seq<Event>)
    requires forall i :: 0 <= i < |events| ==> !events[i].AttemptStart?
    ensures Starts(events) == 0
  {
    if events != [] {
      NoStarts(events[1..]);
    }
  }

  lemma StartsOfEnding(events: seq<Event>, n: int)
    requires EndsShape(events, n)
    ensures events != [] && Starts(events) == if events[0].AttemptStart? then 1 else 0
  {
    NoStarts(events[1..]);
  }

  lemma StartsOfRetried(n: int)
    ensures Starts(Retried(n)) == 1
  {
    NoStarts(Retried(n)[1..]);
  }

  function Calls(log: seq<Mark>): nat {
    if log == [] then 0 else Calls(log[..|log| - 1]) + (if log[|log| - 1].CallStarted? then 1 else 0)
  }

  lemma CallsAppend(log: seq<Mark>, m: Mark)
    ensures Calls(log + [m]) == Calls(log) + (if m.CallStarted? then 1 else 0)
  {
    assert (log + [m])[..|log|] == log;
  }

  lemma TryIsWellShaped(c: Config, s: Wrapper, op: Operation, a: Attempt, tokens: int, n: int)
    ensures match Try(c, s, op, a, tokens, n)
      case Ends(t) =>
        && EndsShape(t.events, n) && t.events != []
        && Calls(t.state.log) == Calls(s.log) + (if t.events[0].AttemptStart? then 1 else 0)
      case Retries(s') => n < c.maxAttempts && Calls(s'.log) == Calls(s.log) + 1
  {
    hide ReserveIn, ReleaseIn, ReconcileIn, AfterRate, RateAllows, Fits, IsOpen, AfterCheck, Calls;
    var (s1, event) := Begin(c, s, a, tokens, n);
    if a.before.Alive? && event.AttemptStart? {
      CallsAppend(s.log, CallStarted(s1.clock));
      var b := AfterFailure(c, s1.breaker, s1.clock + a.callTakes);
      if b.openUntil.Some? {
        CallsAppend(s1.log, CircuitOpened(b.openUntil.value));
      }
    }
  }

  /** Every trace is well shaped; inner calls are the start events, never more than
      maxAttempts of them, fewer by the number of the first attempt. */
  lemma {:induction false} TraceIsWellShaped(
    c: Config, s: Wrapper, op: Operation, script: int -> Attempt, tokens: int, n: int)
    requires n <= c.maxAttempts
    ensures var t := Attempts(c, s, op, script, tokens, n);
      && WellShaped(t.events, n, c.maxAttempts)
      && Starts(t.events) <= c.maxAttempts - n + 1
      && Calls(t.state.log) == Calls(s.log) + Starts(t.events)
    decreases c.maxAttempts - n
  {
    hide Try, EndsShape, Calls;
    TryIsWellShaped(c, s, op, script(n), tokens, n);
    match Try(c, s, op, script(n), tokens, n)
    case Ends(t) => StartsOfEnding(t.events, n);
    case Retries(s') =>
      TraceIsWellShaped(c, s', op, script, tokens, n + 1);
      var rest := Attempts(c, s', op, script, tokens, n + 1).events;
      StartsOfRetried(n);
      StartsOfJoin(Retried(n), rest);
      assert (Retried(n) + rest)[3..] == rest;
  }

  // ----- budget: what one call costs

  function Times(e: Amount, k: nat): Amount {
    if k == 0 then Amount(0, 0.0) else Add(Times(e, k - 1), e)
  }

  /** The usage that settles the call: that of the attempt named by the final success. */
  function SettledBy(op: Operation, events: seq<Event>, script: int -> Attempt): Option<Usage> {
    if op.Generate? && events != [] && events[|events| - 1].Succeeded?
      && script(events[|events| - 1].n).result.Completed?
    then Some(script(events[|events| - 1].n).result.usage) else None
  }

  function Correction(c: Config, e: Amount, settled: Option<Usage>): Amount {
    match settled
    case None => Amount(0, 0.0)
    case Some(u) => Amount(Actual(c, e, u).tokens - e.tokens, Actual(c, e, u).cost - e.cost)
  }

  lemma TryKeepsBooks(c: Config, s: Wrapper, op: Operation, a: Attempt, tokens: int, n: int)
    requires Conserved(s.books) && WithinLimits(c, s.books)
    ensures var b := (match Try(c, s, op, a, tokens, n) case Ends(t) => t.state.books case Retries(s') => s'.books);
      Conserved(b) && WithinLimits(c, b)
  {
    hide Conserved, WithinLimits;
    StepKeepsBooks(c, s.books, Reserve(tokens));
    var reserved := ReserveIn(c, s.books, tokens);
    if reserved.entries != [] && reserved.entries[|reserved.entries| - 1].status.InFlight? {
      StepKeepsBooks(c, reserved, Release(|reserved.entries| - 1));
      if a.result.Completed? {
        StepKeepsBooks(c, reserved, Reconcile(|reserved.entries| - 1, a.result.usage));
      }
    }
  }

  lemma BeginCharges(c: Config, s: Wrapper, a: Attempt, tokens: int, n: int)
    requires Conserved(s.books) && Active(c)
    ensures var (s', event) := Begin(c, s, a, tokens, n);
      if event.AttemptStart? then
        && s'.books == ReserveIn(c, s.books, tokens) && s'.books.entries != []
        && s'.books.entries[|s'.books.entries| - 1] == Entry(Estimate(c, tokens), InFlight)
        && Conserved(s'.books) && s'.books.used == Add(s.books.used, Estimate(c, tokens))
      else s'.books.used == s.books.used
  {
    hide Conserved, ReleaseIn, IsOpen, AfterCheck, AfterRate, RateAllows, Estimate, Fits, Overshot, WithinLimits;
    ReserveKeepsBooks(c, s.books, tokens);
    var reserved := ReserveIn(c, s.books, tokens);
    if Fits(c, s.books.used, Estimate(c, tokens)) {
      ReleaseIsExact(reserved, |reserved.entries| - 1);
    }
  }

  lemma CompletionCharges(c: Config, s: Wrapper, op: Operation, u: Usage)
    requires Conserved(s.books) && Active(c) && s.books.entries != [] && s.books.entries[|s.books.entries| - 1].status.InFlight?
    ensures AfterCompletion(c, s, op, u).books.used
         == Add(s.books.used, Correction(c, s.books.entries[|s.books.entries| - 1].estimate, if op.Generate? then Some(u) else None))
  {
    hide Conserved, ReconcileIn, Actual, Less, Overshot;
    ReconcileIsExact(c, s.books, |s.books.entries| - 1, u);
  }

  lemma TryCharges(c: Config, s: Wrapper, op: Operation, script: int -> Attempt, tokens: int, n: int)
    requires Conserved(s.books) && Active(c)
    ensures var e := Estimate(c, tokens);
      match Try(c, s, op, script(n), tokens, n)
      case Retries(s') => s'.books.used == Add(s.books.used, e)
      case Ends(t) =>
        var first := if t.events != [] && t.events[0].AttemptStart? then e else Amount(0, 0.0);
        t.events != [] && t.state.books.used == Add(Add(s.books.used, first), Correction(c, e, SettledBy(op, t.events, script)))
  {
    hide Conserved, Begin, Estimate, AfterCompletion, Correction;
    var a := script(n);
    BeginCharges(c, s, a, tokens, n);
    BeginEmits(c, s, a, tokens, n);
    NoCorrection(c, Estimate(c, tokens));
    var (s1, event) := Begin(c, s, a, tokens, n);
    if a.before.Alive? && event.AttemptStart? && a.result.Completed? {
      CompletionCharges(c, s1.(clock := s1.clock + a.callTakes), op, a.result.usage);
    }
  }

  lemma NoCorrection(c: Config, e: Amount)
    ensures Correction(c, e, None) == Amount(0, 0.0)
  {
  }

  lemma BeginEmits(c: Config, s: Wrapper, a: Attempt, tokens: int, n: int)
    ensures EndsShape([Begin(c, s, a, tokens, n).1], n) || Begin(c, s, a, tokens, n).1 == AttemptStart(n)
  {
  }

  /** With a budget active, a call adds its estimate once per started attempt, failed
      ones included, and a completed generate call then trades the last for its usage. */
  lemma {:induction false} CallIsCharged(
    c: Config, s: Wrapper, op: Operation, script: int -> Attempt, tokens: int, n: int)
    requires Conserved(s.books) && WithinLimits(c, s.books) && Active(c)
    ensures var t := Attempts(c, s, op, script, tokens, n);
      && Conserved(t.state.books) && WithinLimits(c, t.state.books)
      && t.events != []
      && t.state.books.used == Add(Add(s.books.used, Times(Estimate(c, tokens), Starts(t.events))),
                                   Correction(c, Estimate(c, tokens), SettledBy(op, t.events, script)))
    decreases Positive(c.maxAttempts - n)
  {
    hide Try, Conserved, WithinLimits, Correction, Estimate, EndsShape;
    TryKeepsBooks(c, s, op, script(n), tokens, n);
    TryCharges(c, s, op, script, tokens, n);
    TryIsWellShaped(c, s, op, script(n), tokens, n);
    match Try(c, s, op, script(n), tokens, n)
    case Ends(t) =>
      StartsOfEnding(t.events, n);
      assert Times(Estimate(c, tokens), 1) == Add(Times(Estimate(c, tokens), 0), Estimate(c, tokens));
    case Retries(s') =>
      CallIsCharged(c, s', op, script, tokens, n + 1);
      var rest := Attempts(c, s', op, script, tokens, n + 1).events;
      StartsOfRetried(n);
      StartsOfJoin(Retried(n), rest);
      assert (Retried(n) + rest)[|Retried(n) + rest| - 1] == rest[|rest| - 1];
  }

  // ----- circuit: quiet while open, for a single caller

  /** No inner call starts before the end of an earlier opening. */
  ghost predicate Quiet(log: seq<Mark>) {
    forall i, j :: 0 <= i < j < |log| && log[i].CircuitOpened? && log[j].CallStarted? ==> log[i].until <= log[j].at
  }

  /** Past openings are over, except the one the breaker still holds. */
  ghost predicate OpeningsHeld(s: Wrapper) {
    && Quiet(s.log)
    && forall i :: 0 <= i < |s.log| && s.log[i].CircuitOpened? ==>
         s.log[i].until <= s.clock || s.breaker.openUntil == Some(s.log[i].until)
  }

  lemma BeginIsQuiet(c: Config, s: Wrapper, a: Attempt, tokens: int, n: int)
    requires OpeningsHeld(s) && (c.failureThreshold == 0 ==> s.breaker.openUntil.None?)
    ensures var (s', event) := Begin(c, s, a, tokens, n);
      && OpeningsHeld(s') && (c.failureThreshold == 0 ==> s'.breaker.openUntil.None?)
      && (event.AttemptStart? ==> s'.breaker.openUntil.None?)
  {
    hide Fits, ReserveIn, ReleaseIn, AfterRate, RateAllows;
    var (s', event) := Begin(c, s, a, tokens, n);
    if event.AttemptStart? {
      assert s'.log == s.log + [CallStarted(s'.clock)];
    }
  }

  lemma TryIsQuiet(c: Config, s: Wrapper, op: Operation, a: Attempt, tokens: int, n: int)
    requires OpeningsHeld(s) && (c.failureThreshold == 0 ==> s.breaker.openUntil.None?)
    ensures var s' := (match Try(c, s, op, a, tokens, n) case Ends(t) => t.state case Retries(s') => s');
      OpeningsHeld(s') && (c.failureThreshold == 0 ==> s'.breaker.openUntil.None?) && s'.clock >= s.clock
  {
    hide Begin, ReconcileIn, CountsAgainstCircuit, ShouldRetry;
    BeginIsQuiet(c, s, a, tokens, n);
    BeginAdvances(c, s, a, tokens, n);
  }

  lemma BeginAdvances(c: Config, s: Wrapper, a: Attempt, tokens: int, n: int)
    ensures Begin(c, s, a, tokens, n).0.clock >= s.clock
  {
  }

  datatype Call = Call(op: Operation, script: int -> Attempt, tokens: int)

  /** One caller making calls one after another. */
  function Session(c: Config, calls: seq<Call>, n: nat): Wrapper
    requires n <= |calls|
  {
    if n == 0 then FRESH else
    Attempts(c, Session(c, calls, n - 1), calls[n - 1].op, calls[n - 1].script, calls[n - 1].tokens, 1).state
  }

  lemma {:induction false} AttemptsAreQuiet(
    c: Config, s: Wrapper, op: Operation, script: int -> Attempt, tokens: int, n: int)
    requires OpeningsHeld(s) && (c.failureThreshold == 0 ==> s.breaker.openUntil.None?)
    ensures var s' := Attempts(c, s, op, script, tokens, n).state;
      OpeningsHeld(s') && (c.failureThreshold == 0 ==> s'.breaker.openUntil.None?)
    decreases Positive(c.maxAttempts - n)
  {
    hide OpeningsHeld, Try;
    TryIsQuiet(c, s, op, script(n), tokens, n);
    TryIsWellShaped(c, s, op, script(n), tokens, n);
    match Try(c, s, op, script(n), tokens, n)
    case Ends(_) =>
    case Retries(s') => AttemptsAreQuiet(c, s', op, script, tokens, n + 1);
  }

  /** For any sequence of calls by one caller, no inner call starts between an opening
      of the circuit and the end of its cooldown. */
  lemma {:induction false} OpenCircuitIsQuiet(c: Config, calls: seq<Call>, n: nat)
    requires n <= |calls|
    ensures Quiet(Session(c, calls, n).log)
    ensures OpeningsHeld(Session(c, calls, n))
    ensures c.failureThreshold == 0 ==> Session(c, calls, n).breaker.openUntil.None?
  {
    if n > 0 {
      OpenCircuitIsQuiet(c, calls, n - 1);
      AttemptsAreQuiet(c, Session(c, calls, n - 1), calls[n - 1].op, calls[n - 1].script, calls[n - 1].tokens, 1);
    }
  }

  /** The two classifiers are written separately and agree on every error: it is retried
      exactly when the caller's context lives and it would count against the circuit. */
  lemma OnlyRetryableErrorsCount(ctx: Context, e: ErrorFacts)
    ensures ShouldRetry(ctx, e) <==> ctx.Alive? && CountsAgainstCircuit(ctx, e)
  {
  }
}
