/** The wrapper itself: its mutex-protected fields and the retry loop over them. */
module ReliableModel {
  import opened Prelude
  import opened Reliability
  import opened BudgetLedger
  import opened RetryLoop

  class Model {
    const config: Config
    var clock: Time
    var usedTokens: int
    var usedCost: real
    var rateWindowStart: Option<Time>
    var rateWindowRequests: int
    var circuitFailures: nat
    var circuitOpenedUntil: Option<Time>
    ghost var entries: seq<Entry>
    ghost var log: seq<Mark>

    constructor (options: Config)
      ensures config == Normalize(options) && State() == FRESH
    {
      config := Normalize(options);
      clock, usedTokens, usedCost := 0, 0, 0.0;
      rateWindowStart, rateWindowRequests := None, 0;
      circuitFailures, circuitOpenedUntil := 0, None;
      entries, log := [], [];
    }

    ghost function Ledger(): Books
      reads this
    {
      Books(Amount(usedTokens, usedCost), entries)
    }

    ghost function State(): Wrapper
      reads this
    {
      Wrapper(clock, Ledger(), Window(rateWindowStart, rateWindowRequests), Breaker(circuitFailures, circuitOpenedUntil), log)
    }

    method Pass(time: nat)
      modifies this`clock
      ensures clock == old(clock) + time
    {
      clock := clock + time;
    }

    method ReserveBudget(tokens: int) returns (estimate: Amount, ok: bool)
      modifies this`usedTokens, this`usedCost, this`entries
      ensures estimate == Estimate(config, tokens) && ok == Fits(config, old(Ledger()).used, estimate)
      ensures Ledger() == ReserveIn(config, old(Ledger()), tokens)
    {
      estimate := Estimate(config, tokens);
      if !Active(config) {
        return estimate, true;
      }
      if config.maxTokens > 0 && usedTokens + estimate.tokens > config.maxTokens {
        return estimate, false;
      }
      if config.maxCost > 0.0 && usedCost + estimate.cost > config.maxCost + 0.000000001 {
        return estimate, false;
      }
      usedTokens, usedCost := usedTokens + estimate.tokens, usedCost + estimate.cost;
      entries := entries + [Entry(estimate, InFlight)];
      ok := true;
    }

    method Release(estimate: Amount, ghost k: nat)
      requires Active(config) ==> k < |entries| && entries[k].estimate == estimate
      modifies this`usedTokens, this`usedCost, this`entries
      ensures Ledger() == if Active(config) then ReleaseIn(old(Ledger()), k) else old(Ledger())
    {
      if !Active(config) {
        return;
      }
      usedTokens := usedTokens - estimate.tokens;
      if usedTokens < 0 {
        usedTokens := 0;
      }
      usedCost := usedCost - estimate.cost;
      if usedCost < 0.0 {
        usedCost := 0.0;
      }
      entries := entries[k := entries[k].(status := Released)];
    }

    method Reconcile(estimate: Amount, usage: Usage, ghost k: nat)
      requires Active(config) ==> k < |entries| && entries[k].estimate == estimate
      modifies this`usedTokens, this`usedCost, this`entries
      ensures Ledger() == if Active(config) then ReconcileIn(config, old(Ledger()), k, usage) else old(Ledger())
    {
      if !Active(config) {
        return;
      }
      var actual := Actual(config, estimate, usage);
      usedTokens := usedTokens + (actual.tokens - estimate.tokens);
      if usedTokens < 0 {
        usedTokens := 0;
      }
      usedCost := usedCost + (actual.cost - estimate.cost);
      if usedCost < 0.0 {
        usedCost := 0.0;
      }
      entries := entries[k := entries[k].(status := Settled(actual))];
    }

    method AllowRate() returns (ok: bool)
      modifies this`rateWindowStart, this`rateWindowRequests
      ensures ok == RateAllows(config, old(State()).window, clock)
      ensures State().window == AfterRate(config, old(State()).window, clock)
    {
      if config.rateLimit == 0 {
        return true;
      }
      if rateWindowStart.None? || clock - rateWindowStart.value >= config.rateInterval {
        rateWindowStart, rateWindowRequests := Some(clock), 0;
      }
      if rateWindowRequests >= config.rateLimit {
        return false;
      }
      rateWindowRequests := rateWindowRequests + 1;
      ok := true;
    }

    method CircuitIsOpen() returns (open: bool)
      modifies this`circuitFailures, this`circuitOpenedUntil
      ensures open == IsOpen(config, old(State()).breaker, clock)
      ensures State().breaker == AfterCheck(config, old(State()).breaker, clock)
    {
      if config.failureThreshold == 0 || circuitOpenedUntil.None? {
        return false;
      }
      if clock < circuitOpenedUntil.value {
        return true;
      }
      circuitOpenedUntil, circuitFailures := None, 0;
      open := false;
    }

    method RecordCircuitSuccess()
      modifies this`circuitFailures, this`circuitOpenedUntil
      ensures State().breaker == AfterSuccess(config, old(State()).breaker)
    {
      if config.failureThreshold != 0 {
        circuitFailures, circuitOpenedUntil := 0, None;
      }
    }

    method RecordCircuitAttemptFailure(ctx: Context, e: ErrorFacts)
      modifies this`circuitFailures, this`circuitOpenedUntil, this`log
      ensures var (was, b) := (old(State()), AfterFailure(config, old(State()).breaker, clock));
        State() == if !CountsAgainstCircuit(ctx, e) then was
                   else was.(breaker := b, log := if b.openUntil.Some? then was.log + [CircuitOpened(b.openUntil.value)] else was.log)
    {
      if CountsAgainstCircuit(ctx, e) {
        if config.failureThreshold != 0 {
          circuitFailures := circuitFailures + 1;
          if circuitFailures >= config.failureThreshold {
            circuitOpenedUntil := Some(clock + config.cooldown);
          }
        }
        if circuitOpenedUntil.Some? {
          log := log + [CircuitOpened(circuitOpenedUntil.value)];
        }
      }
    }

    method BeginAttempt(a: Attempt, tokens: int, n: int) returns (event: Event, estimate: Amount)
      modifies this
      ensures (State(), event) == Begin(config, old(State()), a, tokens, n)
      ensures estimate == Estimate(config, tokens)
      ensures event.AttemptStart? ==> Fits(config, old(Ledger()).used, estimate)
      ensures event.AttemptStart? ==> Ledger() == ReserveIn(config, old(Ledger()), tokens)
    {
      hide AfterRate, RateAllows, IsOpen, AfterCheck, Estimate;
      estimate := Estimate(config, tokens);
      Pass(a.untilCheck);
      var open := CircuitIsOpen();
      if open {
        CheckKeepsOpenCircuit(config, old(State()).breaker, clock);
        return CircuitRejected(n), estimate;
      }
      var ok;
      estimate, ok := ReserveBudget(tokens);
      if !ok {
        return BudgetRejected(n), estimate;
      }
      Pass(a.untilRate);
      ok := AllowRate();
      if !ok {
        Release(estimate, if entries == [] then 0 else |entries| - 1);
        return RateRejected(n), estimate;
      }
      log := log + [CallStarted(clock)];
      event := AttemptStart(n);
    }

    /** One attempt; None if it failed and is to be retried after its backoff. */
    method TryOnce(op: Operation, a: Attempt, tokens: int, n: int) returns (ending: Option<seq<Event>>)
      modifies this
      ensures RetryLoop.Try(config, old(State()), op, a, tokens, n)
           == (match ending case Some(events) => Ends(Trace(State(), events)) case None => Retries(State()))
    {
      hide Begin, ReserveIn, Fits, Estimate, CountsAgainstCircuit, ShouldRetry, ReconcileIn;
      if !a.before.Alive? {
        return Some([FinalFailure(n)]);
      }
      var event, estimate := BeginAttempt(a, tokens, n);
      if !event.AttemptStart? {
        return Some([event]);
      }
      ReservedLast(config, old(Ledger()), tokens);
      Pass(a.callTakes);
      match a.result {
        case Completed(usage) =>
          if op.Generate? {
            Reconcile(estimate, usage, if entries == [] then 0 else |entries| - 1);
          }
          RecordCircuitSuccess();
          return Some([event, Succeeded(n)]);
        case Erred(e) =>
          if !(n < config.maxAttempts && ShouldRetry(a.after, e)) {
            RecordCircuitAttemptFailure(a.after, e);
            return Some([event, AttemptFailure(n, false), FinalFailure(n)]);
          }
          Pass(a.backoff);
          return if a.sleepFails then Some(Retried(n) + [FinalFailure(n)]) else None;
      }
    }

    /** Generate and Stream: at most maxAttempts inner calls, each after its checks. */
    method Call(op: Operation, script: int -> Attempt, tokens: int) returns (events: seq<Event>)
      modifies this
      ensures Trace(State(), events) == Attempts(config, old(State()), op, script, tokens, 1)
    {
      hide RetryLoop.Try;
      ghost var whole := Attempts(config, State(), op, script, tokens, 1);
      events := [];
      var n := 1;
      while true
        invariant var rest := Attempts(config, State(), op, script, tokens, n);
          whole == Trace(rest.state, events + rest.events)
        decreases Positive(config.maxAttempts - n)
      {
        TryIsWellShaped(config, State(), op, script(n), tokens, n);
        var ending := TryOnce(op, script(n), tokens, n);
        if ending.Some? {
          return events + ending.value;
        }
        events, n := events + Retried(n), n + 1;
      }
    }
  }

  lemma CheckKeepsOpenCircuit(c: Config, b: Breaker, now: Time)
    ensures IsOpen(c, b, now) ==> AfterCheck(c, b, now) == b
  {
  }

  lemma ReservedLast(c: Config, b: Books, tokens: int)
    requires Fits(c, b.used, Estimate(c, tokens))
    ensures var r := ReserveIn(c, b, tokens).entries;
      Active(c) ==> r != [] && r[|r| - 1] == Entry(Estimate(c, tokens), InFlight)
  {
  }
}
