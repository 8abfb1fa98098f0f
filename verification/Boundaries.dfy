/** Tool-call boundary events: a stream brackets every tool call between one start and
    one done event, and both carry the call's output index. */
module Boundaries {
  import opened Core

  function StartsAt(e: StreamEvent, index: int): nat { if e.ToolCallStart? && e.index == index then 1 else 0 }

  function DonesAt(e: StreamEvent, index: int): nat { if e.ToolCallDone? && e.index == index then 1 else 0 }

  /** How many of the first n events start, or finish, the call at an index. */
  function Starts(events: seq<StreamEvent>, n: nat, index: int): nat
    requires n <= |events|
  {
    if n == 0 then 0 else Starts(events, n - 1, index) + StartsAt(events[n - 1], index)
  }

  function Dones(events: seq<StreamEvent>, n: nat, index: int): nat
    requires n <= |events|
  {
    if n == 0 then 0 else Dones(events, n - 1, index) + DonesAt(events[n - 1], index)
  }

  predicate IsBoundary(e: StreamEvent) { e.ToolCallStart? || e.ToolCallDone? }

  /** Exactly the calls in `started` have a start event and exactly those in `done` a
      done event; no event is repeated and no done event precedes its start. */
  ghost predicate Bracketed(events: seq<StreamEvent>, started: set<int>, done: set<int>) {
    && done <= started
    && (forall k :: 0 <= k < |events| ==> IsBoundary(events[k]))
    && (forall i :: Starts(events, |events|, i) == if i in started then 1 else 0)
    && (forall i :: Dones(events, |events|, i) == if i in done then 1 else 0)
    && (forall i, n :: 0 <= n <= |events| ==> Dones(events, n, i) <= Starts(events, n, i) <= 1)
  }

  lemma {:induction false} CountsOfPrefix(events: seq<StreamEvent>, longer: seq<StreamEvent>, n: nat, index: int)
    requires events <= longer && n <= |events|
    ensures Starts(longer, n, index) == Starts(events, n, index)
    ensures Dones(longer, n, index) == Dones(events, n, index)
  {
    if n > 0 {
      CountsOfPrefix(events, longer, n - 1, index);
    }
  }

  lemma BracketGrows(events: seq<StreamEvent>, e: StreamEvent, started: set<int>, done: set<int>)
    requires Bracketed(events, started, done) && IsBoundary(e)
    requires if e.ToolCallStart? then e.index !in started else e.index in started && e.index !in done
    ensures e.ToolCallStart? ==> Bracketed(events + [e], started + {e.index}, done)
    ensures e.ToolCallDone? ==> Bracketed(events + [e], started, done + {e.index})
  {
    var all := events + [e];
    forall i, n | 0 <= n <= |events|
      ensures Starts(all, n, i) == Starts(events, n, i) && Dones(all, n, i) == Dones(events, n, i)
    {
      CountsOfPrefix(events, all, n, i);
    }
    forall i
      ensures Starts(all, |all|, i) == Starts(events, |events|, i) + StartsAt(e, i)
      ensures Dones(all, |all|, i) == Dones(events, |events|, i) + DonesAt(e, i)
    {
    }
  }

  /** Two event lists that agree on kinds and indexes are bracketed alike. */
  lemma {:induction false} CountsIgnoreNames(a: seq<StreamEvent>, b: seq<StreamEvent>, n: nat, index: int)
    requires |a| == |b| && n <= |a|
    requires forall k :: 0 <= k < |a| ==> StartsAt(a[k], index) == StartsAt(b[k], index) && DonesAt(a[k], index) == DonesAt(b[k], index)
    ensures Starts(a, n, index) == Starts(b, n, index) && Dones(a, n, index) == Dones(b, n, index)
  {
    if n > 0 {
      CountsIgnoreNames(a, b, n - 1, index);
    }
  }

  lemma RenamedStaysBracketed(a: seq<StreamEvent>, b: seq<StreamEvent>, started: set<int>, done: set<int>)
    requires |a| == |b| && Bracketed(a, started, done)
    requires forall k :: 0 <= k < |a| ==> a[k].ToolCallStart? == b[k].ToolCallStart? && IsBoundary(b[k]) && a[k].index == b[k].index
    ensures Bracketed(b, started, done)
  {
    forall i, n | 0 <= n <= |b|
      ensures Starts(a, n, i) == Starts(b, n, i) && Dones(a, n, i) == Dones(b, n, i)
    {
      CountsIgnoreNames(a, b, n, i);
    }
  }

  lemma {:induction false} CountsGrow(events: seq<StreamEvent>, n: nat, m: nat, index: int)
    requires n <= m <= |events|
    ensures Starts(events, n, index) <= Starts(events, m, index)
    ensures Dones(events, n, index) <= Dones(events, m, index)
  {
    if n < m {
      CountsGrow(events, n, m - 1, index);
    }
  }

  /** Only calls that have started are mentioned. */
  lemma BracketMentions(events: seq<StreamEvent>, started: set<int>, done: set<int>, k: nat)
    requires Bracketed(events, started, done) && k < |events|
    ensures events[k].index in started
  {
    var i := events[k].index;
    CountsGrow(events, k + 1, |events|, i);
  }
}
