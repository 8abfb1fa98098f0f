/** The per-tool concurrency slots of an agent: a counter map guarded by a mutex,
    taken before a tool runs and given back once by the closure that acquiring returned. */
module ToolSlots {
  import opened Prelude

  type Counts = map<string, nat>

  function InUse(counts: Counts, name: string): nat { if name in counts then counts[name] else 0 }

  predicate Admits(counts: Counts, name: string, limit: int) { InUse(counts, name) < limit }

  function Taken(counts: Counts, name: string): Counts { counts[name := InUse(counts, name) + 1] }

  /** The last slot removes the entry. */
  function GivenBack(counts: Counts, name: string): Counts {
    if InUse(counts, name) <= 1 then counts - {name} else counts[name := counts[name] - 1]
  }

  class Slots {
    var counts: Counts

    constructor ()
      ensures counts == map[]
    {
      counts := map[];
    }

    /** A limit of zero or less takes no slot. */
    method Acquire(name: string, limit: int) returns (granted: bool)
      modifies this
      ensures granted == (limit <= 0 || Admits(old(counts), name, limit))
      ensures counts == if 0 < limit && granted then Taken(old(counts), name) else old(counts)
    {
      if limit <= 0 {
        return true;
      }
      if !Admits(counts, name, limit) {
        return false;
      }
      counts := Taken(counts, name);
      granted := true;
    }

    method Release(name: string)
      modifies this
      ensures counts == GivenBack(old(counts), name)
    {
      if InUse(counts, name) <= 1 {
        counts := counts - {name};
      } else {
        counts := counts[name := counts[name] - 1];
      }
    }
  }

  // ----- any interleaving of callers

  /** A slot that was granted; its release closure runs at most once. */
  datatype Holder = Holder(name: string, running: bool)

  datatype State = State(counts: Counts, holders: seq<Holder>)

  datatype Step = Acquire(name: string, limit: int) | Release(holder: nat)

  function Next(s: State, step: Step): State {
    match step
    case Acquire(name, limit) =>
      if limit <= 0 || !Admits(s.counts, name, limit) then s
      else State(Taken(s.counts, name), s.holders + [Holder(name, true)])
    case Release(k) =>
      if k >= |s.holders| || !s.holders[k].running then s
      else State(GivenBack(s.counts, s.holders[k].name), s.holders[k := s.holders[k].(running := false)])
  }

  function Execute(steps: seq<Step>): State {
    if steps == [] then State(map[], []) else Next(Execute(steps[..|steps| - 1]), steps[|steps| - 1])
  }

  function Running(holders: seq<Holder>, name: string): nat {
    if holders == [] then 0 else
    var last := holders[|holders| - 1];
    Running(holders[..|holders| - 1], name) + (if last.running && last.name == name then 1 else 0)
  }

  lemma {:induction false} RunningAfterStop(holders: seq<Holder>, k: nat, name: string)
    requires k < |holders| && holders[k].running
    ensures Running(holders[k := holders[k].(running := false)], name) + (if holders[k].name == name then 1 else 0)
         == Running(holders, name)
  {
    var last := |holders| - 1;
    var after := holders[k := holders[k].(running := false)];
    if k == last {
      assert after[..last] == holders[..last];
    } else {
      assert after[..last] == holders[..last][k := holders[k].(running := false)];
      RunningAfterStop(holders[..last], k, name);
    }
  }

  /** The counter of a tool is the number of its calls that hold a slot, and the map
      keeps no entry for an idle tool. */
  ghost predicate Balanced(s: State) {
    && (forall name :: InUse(s.counts, name) == Running(s.holders, name))
    && (forall name :: name in s.counts ==> s.counts[name] > 0)
  }

  lemma StepKeepsBalance(s: State, step: Step)
    requires Balanced(s)
    ensures Balanced(Next(s, step))
  {
    var t := Next(s, step);
    match step
    case Acquire(name, limit) =>
      if t != s {
        assert t.holders[..|s.holders|] == s.holders;
        forall other ensures InUse(t.counts, other) == Running(t.holders, other) {
          assert InUse(s.counts, other) == Running(s.holders, other);
        }
      }
    case Release(k) =>
      if t != s {
        forall other ensures InUse(t.counts, other) == Running(t.holders, other) {
          assert InUse(s.counts, other) == Running(s.holders, other);
          RunningAfterStop(s.holders, k, other);
        }
      }
  }

  lemma {:induction false} SlotsStayBalanced(steps: seq<Step>)
    ensures Balanced(Execute(steps))
  {
    if steps == [] {
      forall name ensures Running([], name) == 0 {}
    } else {
      SlotsStayBalanced(steps[..|steps| - 1]);
      StepKeepsBalance(Execute(steps[..|steps| - 1]), steps[|steps| - 1]);
    }
  }

  /** However acquires and releases interleave, no more calls of a tool hold a slot at once
      than the largest limit any caller asked for. A call that asks for no limit takes no
      slot and is not counted. */
  lemma {:induction false} NeverOverLimit(steps: seq<Step>, name: string, limit: nat)
    requires forall i :: 0 <= i < |steps| && steps[i].Acquire? && steps[i].name == name ==> steps[i].limit <= limit
    ensures Running(Execute(steps).holders, name) <= limit
  {
    if steps != [] {
      var before := steps[..|steps| - 1];
      var s, step := Execute(before), steps[|steps| - 1];
      NeverOverLimit(before, name, limit);
      SlotsStayBalanced(before);
      assert InUse(s.counts, name) == Running(s.holders, name);
      match step
      case Acquire(_, _) => assert (s.holders + [Holder(step.name, true)])[..|s.holders|] == s.holders;
      case Release(k) =>
        if k < |s.holders| && s.holders[k].running {
          RunningAfterStop(s.holders, k, name);
        }
    }
  }

  /** A call that asks for a limit gets a slot exactly when fewer of its tool's calls than
      that hold one. */
  lemma {:induction false} GrantedExactly(steps: seq<Step>, name: string, limit: nat)
    requires limit > 0
    ensures var s, t := Execute(steps), Execute(steps + [Acquire(name, limit)]);
      t.holders == if Running(s.holders, name) < limit then s.holders + [Holder(name, true)] else s.holders
  {
    SlotsStayBalanced(steps);
    assert (steps + [Acquire(name, limit)])[..|steps|] == steps;
    assert InUse(Execute(steps).counts, name) == Running(Execute(steps).holders, name);
  }
}
