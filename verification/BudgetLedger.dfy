/** Conservation of the token and cost budget over any interleaving of callers. */
module BudgetLedger {
  import opened Prelude
  import opened Reliability

  datatype Status = InFlight | Released | Settled(actual: Amount)

  /** One successful reservation. A call that failed stays in flight for good. */
  datatype Entry = Entry(estimate: Amount, status: Status)

  datatype Books = Books(used: Amount, entries: seq<Entry>)

  datatype Step = Reserve(tokens: int) | Release(k: nat) | Reconcile(k: nat, usage: Usage)

  function ReserveIn(c: Config, b: Books, tokens: int): Books {
    var estimate := Estimate(c, tokens);
    if !Active(c) || !Fits(c, b.used, estimate) then b
    else Books(Add(b.used, estimate), b.entries + [Entry(estimate, InFlight)])
  }

  function ReleaseIn(b: Books, k: nat): Books
    requires k < |b.entries|
  {
    Books(Less(b.used, b.entries[k].estimate), b.entries[k := b.entries[k].(status := Released)])
  }

  /** usedTokens += actual - estimate, then the clamp. */
  function ReconcileIn(c: Config, b: Books, k: nat, usage: Usage): Books
    requires k < |b.entries|
  {
    var e := b.entries[k].estimate;
    var actual := Actual(c, e, usage);
    Books(Less(Add(b.used, actual), e), b.entries[k := b.entries[k].(status := Settled(actual))])
  }

  /** A reservation is released or reconciled at most once: release happens before the
      inner call, and a stream yields at most one done event. */
  function Next(c: Config, b: Books, step: Step): Books {
    match step
    case Reserve(tokens) => ReserveIn(c, b, tokens)
    case Release(k) => if k < |b.entries| && b.entries[k].status.InFlight? then ReleaseIn(b, k) else b
    case Reconcile(k, usage) => if k < |b.entries| && b.entries[k].status.InFlight? then ReconcileIn(c, b, k, usage) else b
  }

  const EMPTY := Books(Amount(0, 0.0), [])

  function Execute(c: Config, steps: seq<Step>): Books {
    if steps == [] then EMPTY else Next(c, Execute(c, steps[..|steps| - 1]), steps[|steps| - 1])
  }

  // ----- what the books should say

  /** Nothing if released, actual usage if reconciled, the estimate if in flight or failed. */
  function Charge(e: Entry): Amount {
    match e.status
    case InFlight => e.estimate
    case Released => Amount(0, 0.0)
    case Settled(actual) => actual
  }

  /** The charges of the first n entries. */
  function Total(entries: seq<Entry>, n: nat): Amount
    requires n <= |entries|
  {
    if n == 0 then Amount(0, 0.0) else Add(Total(entries, n - 1), Charge(entries[n - 1]))
  }

  /** By how much a reconciled call went over its estimate. */
  function Overshoot(e: Entry): Amount {
    if !e.status.Settled? then Amount(0, 0.0) else Less(e.status.actual, e.estimate)
  }

  function TotalOvershoot(entries: seq<Entry>, n: nat): Amount
    requires n <= |entries|
  {
    if n == 0 then Amount(0, 0.0) else Add(TotalOvershoot(entries, n - 1), Overshoot(entries[n - 1]))
  }

  predicate Sane(e: Entry) {
    && e.estimate.tokens >= 0 && e.estimate.cost >= 0.0
    && (e.status.Settled? ==> e.status.actual.tokens >= 0 && e.status.actual.cost >= 0.0)
  }

  ghost predicate AllSane(entries: seq<Entry>) { forall i :: 0 <= i < |entries| ==> Sane(entries[i]) }

  ghost predicate Conserved(b: Books) { AllSane(b.entries) && b.used == Total(b.entries, |b.entries|) }

  ghost predicate WithinLimits(c: Config, b: Books) {
    && (c.maxTokens > 0 ==> b.used.tokens <= c.maxTokens + Overshot(b).tokens)
    && (c.maxCost > 0.0 ==> b.used.cost <= c.maxCost + 0.000000001 + Overshot(b).cost)
  }

  function Overshot(b: Books): Amount { TotalOvershoot(b.entries, |b.entries|) }


  lemma {:induction false} TotalOfPrefix(entries: seq<Entry>, more: seq<Entry>, n: nat)
    requires n <= |entries|
    ensures Total(entries + more, n) == Total(entries, n)
    ensures TotalOvershoot(entries + more, n) == TotalOvershoot(entries, n)
  {
    if n > 0 {
      TotalOfPrefix(entries, more, n - 1);
    }
  }

  predicate MovedBy(before: Amount, after: Amount, out: Amount, into: Amount) {
    after.tokens == before.tokens - out.tokens + into.tokens && after.cost == before.cost - out.cost + into.cost
  }

  lemma {:induction false} TotalAfterChange(entries: seq<Entry>, k: nat, e: Entry, n: nat)
    requires k < |entries| && n <= |entries|
    ensures var (before, after) := (Total(entries, n), Total(entries[k := e], n));
      if n <= k then after == before else MovedBy(before, after, Charge(entries[k]), Charge(e))
    ensures var (before, after) := (TotalOvershoot(entries, n), TotalOvershoot(entries[k := e], n));
      if n <= k then after == before else MovedBy(before, after, Overshoot(entries[k]), Overshoot(e))
  {
    if n > 0 {
      TotalAfterChange(entries, k, e, n - 1);
    }
  }

  lemma {:induction false} ChargeIsPartOfTotal(entries: seq<Entry>, k: nat, n: nat)
    requires k < n <= |entries| && AllSane(entries)
    ensures 0 <= Charge(entries[k]).tokens <= Total(entries, n).tokens
    ensures 0.0 <= Charge(entries[k]).cost <= Total(entries, n).cost
  {
    assert Sane(entries[n - 1]) && Sane(entries[k]);
    TotalIsNotNegative(entries, n - 1);
    if k < n - 1 {
      ChargeIsPartOfTotal(entries, k, n - 1);
    }
  }

  lemma {:induction false} TotalIsNotNegative(entries: seq<Entry>, n: nat)
    requires n <= |entries| && AllSane(entries)
    ensures Total(entries, n).tokens >= 0 && Total(entries, n).cost >= 0.0
    ensures TotalOvershoot(entries, n).tokens >= 0 && TotalOvershoot(entries, n).cost >= 0.0
  {
    if n > 0 {
      assert Sane(entries[n - 1]);
      TotalIsNotNegative(entries, n - 1);
    }
  }

  /** The clamp of release does not fire: what is given back is still in the total. */
  lemma {:induction false} ReleaseIsExact(b: Books, k: nat)
    requires Conserved(b) && k < |b.entries| && b.entries[k].status.InFlight?
    ensures Conserved(ReleaseIn(b, k))
    ensures ReleaseIn(b, k).used
         == Amount(b.used.tokens - b.entries[k].estimate.tokens, b.used.cost - b.entries[k].estimate.cost)
    ensures Overshot(ReleaseIn(b, k)) == Overshot(b)
  {
    hide Total, TotalOvershoot;
    var e := b.entries[k].(status := Released);
    assert Sane(b.entries[k]);
    ChargeIsPartOfTotal(b.entries, k, |b.entries|);
    TotalAfterChange(b.entries, k, e, |b.entries|);
  }

  lemma ActualIsNotNegative(c: Config, estimate: Amount, u: Usage)
    requires estimate.tokens >= 0 && estimate.cost >= 0.0
    ensures Actual(c, estimate, u).tokens >= 0 && Actual(c, estimate, u).cost >= 0.0
  {
    PriceIsNotNegative(u.input, c.inputPrice);
    PriceIsNotNegative(u.output, c.outputPrice);
    PriceIsNotNegative(u.total, if c.inputPrice < c.outputPrice then c.outputPrice else c.inputPrice);
  }

  lemma PriceIsNotNegative(tokens: int, price: real)
    ensures PricePer1K(tokens, price) >= 0.0
  {
    if tokens > 0 && price > 0.0 {
      assert tokens as real * price >= 0.0;
    }
  }

  /** Nor does the clamp of reconcile. */
  lemma {:induction false} ReconcileIsExact(c: Config, b: Books, k: nat, u: Usage)
    requires Conserved(b) && k < |b.entries| && b.entries[k].status.InFlight?
    ensures Conserved(ReconcileIn(c, b, k, u))
    ensures var (e, after) := (b.entries[k].estimate, ReconcileIn(c, b, k, u));
      && after.used == Amount(b.used.tokens + Actual(c, e, u).tokens - e.tokens, b.used.cost + Actual(c, e, u).cost - e.cost)
      && Overshot(after) == Add(Overshot(b), Less(Actual(c, e, u), e))
  {
    hide Total, TotalOvershoot, Actual;
    var e := b.entries[k];
    assert Sane(e);
    ActualIsNotNegative(c, e.estimate, u);
    ChargeIsPartOfTotal(b.entries, k, |b.entries|);
    TotalAfterChange(b.entries, k, e.(status := Settled(Actual(c, e.estimate, u))), |b.entries|);
  }

  lemma ReserveKeepsBooks(c: Config, b: Books, tokens: int)
    requires Conserved(b)
    ensures Conserved(ReserveIn(c, b, tokens))
    ensures ReserveIn(c, b, tokens) != b ==>
      && WithinLimits(c, ReserveIn(c, b, tokens))
      && Overshot(ReserveIn(c, b, tokens)) == Overshot(b)
  {
    hide PricePer1K, Conserved, Overshot;
    var after := ReserveIn(c, b, tokens);
    if after != b {
      PriceIsNotNegative(Positive(tokens), c.inputPrice);
      EntryKeepsBooks(b, Entry(Estimate(c, tokens), InFlight));
    }
  }

  lemma EntryKeepsBooks(b: Books, e: Entry)
    requires Conserved(b) && Sane(e) && e.status.InFlight?
    ensures var after := Books(Add(b.used, e.estimate), b.entries + [e]);
      && Conserved(after) && Overshot(after) == Overshot(b)
      && Overshot(after).tokens >= 0 && Overshot(after).cost >= 0.0
  {
    TotalOfPrefix(b.entries, [e], |b.entries|);
    TotalIsNotNegative(b.entries, |b.entries|);
    hide TotalOvershoot, Total;
    LastTotal(b.entries + [e]);
  }

  lemma LastTotal(entries: seq<Entry>)
    requires entries != []
    ensures var n := |entries| - 1;
      && Total(entries, n + 1) == Add(Total(entries, n), Charge(entries[n]))
      && TotalOvershoot(entries, n + 1) == Add(TotalOvershoot(entries, n), Overshoot(entries[n]))
  {
  }

  lemma ReleaseStaysWithin(c: Config, b: Books, k: nat)
    requires Conserved(b) && WithinLimits(c, b) && k < |b.entries| && b.entries[k].status.InFlight?
    ensures WithinLimits(c, ReleaseIn(b, k))
  {
    hide ReleaseIn, TotalOvershoot, Total, Overshot;
    assert Sane(b.entries[k]);
    ReleaseIsExact(b, k);
  }

  lemma ReconcileStaysWithin(c: Config, b: Books, k: nat, u: Usage)
    requires Conserved(b) && WithinLimits(c, b) && k < |b.entries| && b.entries[k].status.InFlight?
    ensures WithinLimits(c, ReconcileIn(c, b, k, u))
  {
    hide ReconcileIn, TotalOvershoot, Total, Overshot, Actual;
    ReconcileIsExact(c, b, k, u);
  }

  lemma StepKeepsBooks(c: Config, b: Books, step: Step)
    requires Conserved(b) && WithinLimits(c, b)
    ensures Conserved(Next(c, b, step)) && WithinLimits(c, Next(c, b, step))
  {
    hide ReserveIn, ReleaseIn, ReconcileIn, Conserved, WithinLimits;
    match step
    case Reserve(tokens) => ReserveKeepsBooks(c, b, tokens);
    case Release(k) =>
      if k < |b.entries| && b.entries[k].status.InFlight? {
        ReleaseIsExact(b, k);
        ReleaseStaysWithin(c, b, k);
      }
    case Reconcile(k, usage) =>
      if k < |b.entries| && b.entries[k].status.InFlight? {
        ReconcileIsExact(c, b, k, usage);
        ReconcileStaysWithin(c, b, k, usage);
      }
  }

  /** In every interleaving the counters equal the sum of what the reservations are
      charged, and exceed the budget by no more than the reconciled calls overshot. */
  lemma {:induction false} BudgetIsConserved(c: Config, steps: seq<Step>)
    ensures Conserved(Execute(c, steps)) && WithinLimits(c, Execute(c, steps))
  {
    if steps != [] {
      BudgetIsConserved(c, steps[..|steps| - 1]);
      StepKeepsBooks(c, Execute(c, steps[..|steps| - 1]), steps[|steps| - 1]);
    }
  }
}
