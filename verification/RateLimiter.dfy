/** What the fixed-window limiter admits over any sequence of request times. */
module RateLimiter {
  import opened Prelude
  import opened Reliability

  /** An admitted request and the start of the window that admitted it. */
  datatype Admission = Admission(time: Time, start: Time)

  datatype Run = Run(window: Window, admitted: seq<Admission>)

  predicate Limiting(c: Config) { c.rateLimit >= 1 && c.rateInterval > 0 }

  function Step(c: Config, r: Run, now: Time): Run
    requires Limiting(c)
  {
    var w := AfterRate(c, r.window, now);
    Run(w, if RateAllows(c, r.window, now) then r.admitted + [Admission(now, w.start.value)] else r.admitted)
  }

  /** The limiter after the first n requests. */
  function After(c: Config, times: seq<Time>, n: nat): Run
    requires Limiting(c) && n <= |times|
  {
    if n == 0 then Run(Window(None, 0), []) else Step(c, After(c, times, n - 1), times[n - 1])
  }

  /** Admissions come window by window; the open window's are the last `requests` of them. */
  ghost predicate Grouped(c: Config, r: Run) {
    var a, w := r.admitted, r.window;
    && 0 <= w.requests <= c.rateLimit && w.requests <= |a|
    && (w.start.None? ==> a == [])
    && (w.start.Some? ==>
        && (forall k :: |a| - w.requests <= k < |a| ==> a[k].start == w.start.value)
        && (forall k :: 0 <= k < |a| - w.requests ==> a[k].start + c.rateInterval <= w.start.value))
    && (forall i, j :: 0 <= i < j < |a| ==>
        if a[i].start == a[j].start then j - i < c.rateLimit else a[i].start + c.rateInterval <= a[j].start)
  }

  lemma StepStaysGrouped(c: Config, r: Run, now: Time)
    requires Limiting(c) && Grouped(c, r)
    ensures Grouped(c, Step(c, r, now))
  {
    var t := Turned(c, r.window, now);
    assert Grouped(c, Run(t, r.admitted));
  }

  lemma {:induction false} StaysGrouped(c: Config, times: seq<Time>, n: nat)
    requires Limiting(c) && n <= |times|
    ensures Grouped(c, After(c, times, n))
  {
    if n > 0 {
      StaysGrouped(c, times, n - 1);
      StepStaysGrouped(c, After(c, times, n - 1), times[n - 1]);
    }
  }

  ghost predicate Nondecreasing(times: seq<Time>) { forall i, j :: 0 <= i < j < |times| ==> times[i] <= times[j] }

  /** With a clock that does not go back, windows also separate the admission times. */
  ghost predicate Timely(r: Run, now: Time) {
    var a := r.admitted;
    && (r.window.start.Some? ==> r.window.start.value <= now)
    && (forall i :: 0 <= i < |a| ==> a[i].start <= a[i].time <= now)
    && (forall i, j :: 0 <= i < j < |a| ==> a[i].time <= a[j].time)
    && (forall i, j :: 0 <= i < j < |a| && a[i].start < a[j].start ==> a[i].time <= a[j].start)
    && (r.window.start.Some? ==>
        forall i :: 0 <= i < |a| && a[i].start < r.window.start.value ==> a[i].time <= r.window.start.value)
  }

  lemma TurnStaysTimely(c: Config, r: Run, last: Time, now: Time)
    requires Limiting(c) && Timely(r, last) && last <= now
    ensures Timely(Run(Turned(c, r.window, now), r.admitted), now)
  {
  }

  lemma AdmitStaysTimely(w: Window, requests: int, a: seq<Admission>, now: Time)
    requires w.start.Some? && Timely(Run(w, a), now)
    requires forall i :: 0 <= i < |a| ==> a[i].start <= w.start.value
    ensures Timely(Run(w.(requests := requests), a + [Admission(now, w.start.value)]), now)
  {
  }

  lemma StepStaysTimely(c: Config, r: Run, last: Time, now: Time)
    requires Limiting(c) && Grouped(c, r) && Timely(r, last) && last <= now
    ensures Timely(Step(c, r, now), now)
  {
    hide Timely;
    var t := Turned(c, r.window, now);
    TurnStaysTimely(c, r, last, now);
    WindowIsLatest(c, r, last, now);
    AdmitStaysTimely(t, t.requests + 1, r.admitted, now);
  }

  lemma WindowIsLatest(c: Config, r: Run, last: Time, now: Time)
    requires Limiting(c) && Grouped(c, r) && Timely(r, last) && last <= now
    ensures Turned(c, r.window, now).start.Some?
    ensures forall i :: 0 <= i < |r.admitted| ==> r.admitted[i].start <= Turned(c, r.window, now).start.value
  {
  }

  lemma {:induction false} StaysTimely(c: Config, times: seq<Time>, n: nat)
    requires Limiting(c) && 0 < n <= |times| && Nondecreasing(times)
    ensures Timely(After(c, times, n), times[n - 1])
  {
    hide Step, Timely, Grouped;
    StaysGrouped(c, times, n - 1);
    if n == 1 {
      StartsTimely(times[0]);
      StepStaysTimely(c, After(c, times, 0), times[0], times[0]);
    } else {
      StaysTimely(c, times, n - 1);
      StepStaysTimely(c, After(c, times, n - 1), times[n - 2], times[n - 1]);
    }
  }

  lemma StartsTimely(now: Time)
    ensures Timely(Run(Window(None, 0), []), now)
  {
  }

  lemma {:induction false} AtMostInRange(s: set<nat>, low: nat, count: nat)
    requires forall i :: i in s ==> low <= i < low + count
    ensures |s| <= count
    decreases count
  {
    if count == 0 {
      assert s == {};
    } else {
      AtMostInRange(s - {low + count - 1}, low, count - 1);
      assert |s| <= |s - {low + count - 1}| + 1;
    }
  }

  lemma AtMostAWindow(s: set<nat>, count: nat)
    requires forall i, j :: i in s && j in s && i < j ==> j - i < count
    requires count > 0
    ensures |s| <= count
  {
    if s != {} {
      var low := LeastOf(s);
      AtMostInRange(s, low, count);
    }
  }

  lemma LeastOf(s: set<nat>) returns (low: nat)
    requires s != {}
    ensures low in s && forall i :: i in s ==> low <= i
  {
    low :| low in s;
    var rest := s - {low};
    if rest == {} {
      assert s == {low};
    } else {
      var x := low;
      var other := LeastOf(rest);
      low := if other < x then other else x;
      assert forall i :: i in s ==> i == x || i in rest;
    }
  }

  ghost function FromWindow(a: seq<Admission>, start: Time): set<nat> {
    set i: nat | i < |a| && a[i].start == start
  }

  ghost function Within(a: seq<Admission>, low: Time, high: Time): set<nat> {
    set i: nat | i < |a| && low <= a[i].time < high
  }

  /** Each internal window admits at most rateLimit calls, even if the clock jumps. */
  lemma WindowBound(c: Config, times: seq<Time>, start: Time)
    requires Limiting(c)
    ensures |FromWindow(After(c, times, |times|).admitted, start)| <= c.rateLimit
  {
    StaysGrouped(c, times, |times|);
    AtMostAWindow(FromWindow(After(c, times, |times|).admitted, start), c.rateLimit);
  }

  lemma TwoWindowsApart(c: Config, r: Run, now: Time, i: nat, j: nat)
    requires Limiting(c) && Grouped(c, r) && Timely(r, now)
    requires j < |r.admitted| && i + 2 * c.rateLimit <= j
    ensures r.admitted[j].time >= r.admitted[i].time + c.rateInterval
  {
    var mid := i + c.rateLimit;
    assert r.admitted[i].start < r.admitted[mid].start && r.admitted[mid].start < r.admitted[j].start;
  }

  /** Any half-open interval of one window's length sees at most two windows' worth. */
  lemma IntervalBound(c: Config, times: seq<Time>, low: Time)
    requires Limiting(c) && Nondecreasing(times)
    ensures |Within(After(c, times, |times|).admitted, low, low + c.rateInterval)| <= 2 * c.rateLimit
  {
    hide Grouped, Timely, Nondecreasing;
    var run := After(c, times, |times|);
    var inside := Within(run.admitted, low, low + c.rateInterval);
    if times == [] {
      assert inside == {};
      return;
    }
    StaysGrouped(c, times, |times|);
    StaysTimely(c, times, |times|);
    forall i, j | i in inside && j in inside && i < j ensures j - i < 2 * c.rateLimit {
      if i + 2 * c.rateLimit <= j {
        TwoWindowsApart(c, run, times[|times| - 1], i, j);
      }
    }
    AtMostAWindow(inside, 2 * c.rateLimit);
  }
}
