/** The shared state of a reliable model wrapper. Every operation below is one section
    that the source runs under the wrapper's mutex; times are nanoseconds. */
module Reliability {
  import opened Prelude

  type Time = int

  datatype Config = Config(
    maxAttempts: int,
    rateLimit: int, rateInterval: int,
    failureThreshold: int, cooldown: int,
    maxTokens: int, maxCost: real, inputPrice: real, outputPrice: real)

  function Normalize(c: Config): Config {
    var limited := c.rateLimit >= 1 && c.rateInterval > 0;
    var guarded := c.failureThreshold >= 1 && c.cooldown > 0;
    Config(
      if c.maxAttempts < 1 then 1 else c.maxAttempts,
      if limited then c.rateLimit else 0, if limited then c.rateInterval else 0,
      if guarded then c.failureThreshold else 0, if guarded then c.cooldown else 0,
      if c.maxTokens < 1 then 0 else c.maxTokens, if c.maxCost <= 0.0 then 0.0 else c.maxCost,
      if c.inputPrice < 0.0 then 0.0 else c.inputPrice, if c.outputPrice < 0.0 then 0.0 else c.outputPrice)
  }

  // ----- budget

  datatype Usage = Usage(input: int, output: int, total: int)

  datatype Amount = Amount(tokens: int, cost: real)

  function Positive(n: int): nat { if n < 0 then 0 else n }

  function UsageTokens(u: Usage): nat {
    if u.total > 0 then u.total else Positive(u.input) + Positive(u.output)
  }

  function PricePer1K(tokens: int, price: real): real {
    if tokens <= 0 || price <= 0.0 then 0.0 else tokens as real * price / 1000.0
  }

  function UsageCost(c: Config, u: Usage): real {
    if u.input > 0 || u.output > 0 then PricePer1K(u.input, c.inputPrice) + PricePer1K(u.output, c.outputPrice)
    else if u.total <= 0 then 0.0
    else PricePer1K(u.total, if c.inputPrice < c.outputPrice then c.outputPrice else c.inputPrice)
  }

  function Estimate(c: Config, tokens: int): Amount { Amount(Positive(tokens), PricePer1K(Positive(tokens), c.inputPrice)) }

  /** What a reconciled call is charged: reported usage, or the estimate where none is reported. */
  function Actual(c: Config, estimate: Amount, u: Usage): Amount {
    Amount(if UsageTokens(u) == 0 then estimate.tokens else UsageTokens(u),
           if UsageCost(c, u) == 0.0 then estimate.cost else UsageCost(c, u))
  }

  predicate Active(c: Config) { c.maxTokens > 0 || c.maxCost > 0.0 }

  predicate OverTokens(c: Config, used: Amount, estimate: Amount) {
    c.maxTokens > 0 && used.tokens + estimate.tokens > c.maxTokens
  }

  predicate OverCost(c: Config, used: Amount, estimate: Amount) {
    c.maxCost > 0.0 && used.cost + estimate.cost > c.maxCost + 0.000000001
  }

  predicate Fits(c: Config, used: Amount, estimate: Amount) {
    !Active(c) || (!OverTokens(c, used, estimate) && !OverCost(c, used, estimate))
  }

  function Add(a: Amount, b: Amount): Amount { Amount(a.tokens + b.tokens, a.cost + b.cost) }

  /** Neither counter is ever left below zero. */
  function Less(a: Amount, b: Amount): Amount {
    Amount(Positive(a.tokens - b.tokens), if a.cost - b.cost < 0.0 then 0.0 else a.cost - b.cost)
  }

  // ----- fixed-window rate limit

  datatype Window = Window(start: Option<Time>, requests: int)

  function Turned(c: Config, w: Window, now: Time): Window {
    if w.start.None? || now - w.start.value >= c.rateInterval then Window(Some(now), 0) else w
  }

  predicate RateAllows(c: Config, w: Window, now: Time) {
    c.rateLimit == 0 || Turned(c, w, now).requests < c.rateLimit
  }

  function AfterRate(c: Config, w: Window, now: Time): Window {
    if c.rateLimit == 0 then w else
    var t := Turned(c, w, now);
    if t.requests >= c.rateLimit then t else t.(requests := t.requests + 1)
  }

  // ----- circuit breaker

  datatype Breaker = Breaker(failures: nat, openUntil: Option<Time>)

  predicate IsOpen(c: Config, b: Breaker, now: Time) {
    c.failureThreshold != 0 && b.openUntil.Some? && now < b.openUntil.value
  }

  function AfterCheck(c: Config, b: Breaker, now: Time): Breaker {
    if c.failureThreshold == 0 || b.openUntil.None? || now < b.openUntil.value then b else Breaker(0, None)
  }

  function AfterSuccess(c: Config, b: Breaker): Breaker {
    if c.failureThreshold == 0 then b else Breaker(0, None)
  }

  function AfterFailure(c: Config, b: Breaker, now: Time): Breaker {
    if c.failureThreshold == 0 then b else
    Breaker(b.failures + 1, if b.failures + 1 >= c.failureThreshold then Some(now + c.cooldown) else b.openUntil)
  }

  // ----- what an error is worth

  datatype Context = Alive | Canceled | DeadlineExceeded

  datatype Subcategory = Timeout | RateLimited | ServerError | Auth | BadRequest | DecodeError | OtherSubcategory

  /** What errors.Is, errors.As and the classifiers can say about an error. */
  datatype ErrorFacts = ErrorFacts(
    canceled: bool, deadline: bool, timeout: bool,
    outsideModel: bool,
    status: Option<int>,
    subcategory: Option<Subcategory>)

  predicate TimedOut(e: ErrorFacts) { e.deadline || e.timeout }

  /** shouldRetry: a switch on the status, then on the subcategory, then timeouts. */
  predicate ShouldRetry(ctx: Context, e: ErrorFacts) {
    if e.canceled || !ctx.Alive? || e.outsideModel then false
    else
      var status := if e.status.Some? then e.status.value else 0;
      if status == 408 || status == 429 then true
      else if 500 <= status <= 599 then true
      else if status == 401 || status == 403 then false
      else if 400 <= status <= 499 then false
      else
        match e.subcategory
        case None => TimedOut(e)
        case Some(s) =>
          if s.Timeout? || s.RateLimited? || s.ServerError? then true
          else if s.Auth? || s.BadRequest? || s.DecodeError? then false
          else TimedOut(e)
  }

  /** isCircuitFailure, written on its own in the source. */
  predicate IsCircuitFailure(e: ErrorFacts) {
    && !e.canceled && !e.outsideModel
    && (if e.status.Some? && (e.status.value in {408, 429} || 500 <= e.status.value <= 599) then true
        else if e.status.Some? && 400 <= e.status.value <= 499 then false
        else if e.subcategory in {Some(Timeout), Some(RateLimited), Some(ServerError)} then true
        else if e.subcategory in {Some(Auth), Some(BadRequest), Some(DecodeError)} then false
        else e.deadline || e.timeout)
  }

  predicate FailedWithParent(ctx: Context, e: ErrorFacts) {
    (ctx.Canceled? && e.canceled) || (ctx.DeadlineExceeded? && e.deadline)
  }

  predicate CountsAgainstCircuit(ctx: Context, e: ErrorFacts) { !FailedWithParent(ctx, e) && IsCircuitFailure(e) }
}
