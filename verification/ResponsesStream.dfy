/** The Responses API tool-call accumulator: calls sit under their item id, which may
    arrive late or grow, so entries are re-keyed while order and flags follow them. */
module ResponsesStream {
  import opened Prelude
  import opened Core
  import opened Boundaries
  import opened GrowingValue
  import opened Decimal

  function IndexKey(index: int): string {
    "index:" + Signed(index)
  }

  function KeyOf(index: int, itemID: string): string { if itemID != "" then itemID else IndexKey(index) }

  // ----- the accumulator

  datatype Call = Call(outputIndex: int, itemID: string, callID: string, name: string, arguments: string)

  function OwnKey(c: Call): string { KeyOf(c.outputIndex, c.itemID) }

  datatype Table = Table(
    calls: map<string, Call>, order: seq<string>, indexKeys: map<int, string>, started: set<string>, done: set<string>)

  const NO_CALLS := Table(map[], [], map[], {}, {})

  function ReplaceFirst(order: seq<string>, was: string, key: string): seq<string> {
    if order == [] then []
    else if order[0] == was then [key] + order[1..]
    else [order[0]] + ReplaceFirst(order[1..], was, key)
  }

  function Moved(flags: set<string>, was: string, key: string): set<string> {
    if was in flags then flags + {key} - {was} else flags
  }

  function KnownKey(t: Table, index: int): string { if index in t.indexKeys then t.indexKeys[index] else "" }

  function ChosenKey(t: Table, index: int, itemID: string): string {
    if itemID != "" then itemID else if KnownKey(t, index) != "" then KnownKey(t, index) else IndexKey(index)
  }

  function Rekeyed(t: Table, index: int, key: string): Table {
    var was := KnownKey(t, index);
    if was != "" && was != key && was in t.calls then
      t.(calls := (t.calls - {was})[key := t.calls[was]], order := ReplaceFirst(t.order, was, key),
         started := Moved(t.started, was, key), done := Moved(t.done, was, key))
    else t
  }

  function Ensured(t: Table, index: int, itemID: string): (r: Table)
    ensures ChosenKey(t, index, itemID) in r.calls
  {
    var key := ChosenKey(t, index, itemID);
    var t1 := if itemID == "" then t else Rekeyed(t, index, key).(indexKeys := t.indexKeys[index := key]);
    var t2 := if key in t1.calls then t1
      else t1.(calls := t1.calls[key := Call(index, itemID, "", "", "")], order := t1.order + [key]);
    if itemID == "" then t2 else Put(t2, key, t2.calls[key].(itemID := AppendValue(t2.calls[key].itemID, itemID)))
  }

  function Put(t: Table, key: string, c: Call): Table { t.(calls := t.calls[key := c]) }

  function Start(t: Table, c: Call): (Table, seq<StreamEvent>) {
    if OwnKey(c) in t.started then (t, [])
    else (t.(started := t.started + {OwnKey(c)}), [ToolCallStart(c.outputIndex, c.callID, c.name)])
  }

  function Complete(t: Table, c: Call): (Table, seq<StreamEvent>) {
    if OwnKey(c) in t.done then (t, [])
    else (t.(done := t.done + {OwnKey(c)}), [ToolCallDone(c.outputIndex, c.callID, c.name)])
  }

  function StartAndFinish(t: Table, c: Call): (Table, seq<StreamEvent>) {
    var (t1, e1) := Start(t, c);
    var (t2, e2) := Complete(t1, c);
    (t2, e1 + e2)
  }

  datatype Item = Item(functionCall: bool, id: string, callID: string, name: string, arguments: string)

  datatype Event =
    | OutputItem(index: int, itemID: string, item: Item)
    | ArgumentsDelta(index: int, itemID: string, delta: string)
    | ArgumentsDone(index: int, itemID: string, arguments: string)

  function Filled(c: Call, item: Item): Call {
    Call(c.outputIndex, AppendValue(c.itemID, item.id), AppendValue(c.callID, item.callID), AppendValue(c.name, item.name),
         if item.arguments != "" then item.arguments else c.arguments)
  }

  predicate Touches(e: Event) {
    match e
    case OutputItem(_, _, item) => item.functionCall
    case ArgumentsDelta(_, _, delta) => delta != ""
    case ArgumentsDone(_, _, _) => true
  }

  /** The item id an event carries. */
  function Carried(e: Event): string { if e.OutputItem? && e.itemID == "" then e.item.id else e.itemID }

  function Apply(t: Table, e: Event): (Table, seq<StreamEvent>) {
    if !Touches(e) then (t, []) else
    var t1, key := Ensured(t, e.index, Carried(e)), ChosenKey(t, e.index, Carried(e));
    match e
    case OutputItem(_, _, item) =>
      var call := Filled(t1.calls[key], item);
      Start(Put(t1, key, call), call)
    case ArgumentsDelta(_, _, delta) =>
      (Put(t1, key, t1.calls[key].(arguments := t1.calls[key].arguments + delta)), [])
    case ArgumentsDone(_, _, arguments) =>
      var call := t1.calls[key].(arguments := arguments);
      StartAndFinish(Put(t1, key, call), call)
  }

  /** What doneEvents has done after the first n keys. */
  function DoneUpTo(t: Table, n: nat): (Table, seq<StreamEvent>)
    requires n <= |t.order|
  {
    if n == 0 then (t, []) else
    var (t1, e1) := DoneUpTo(t, n - 1);
    var key := t.order[n - 1];
    if key !in t.calls then (t1, e1) else
    var (t2, e2) := StartAndFinish(t1, t.calls[key]);
    (t2, e1 + e2)
  }

  type Parse = string -> Option<map<string, Json>>

  ghost predicate Sound(t: Table) { forall k :: 0 <= k < |t.order| ==> t.order[k] in t.calls }

  function FinalCalls(t: Table, parse: Parse, n: nat): Option<seq<ToolCall>>
    requires n <= |t.order| && Sound(t)
  {
    if n == 0 then Some([]) else
    var call := t.calls[t.order[n - 1]];
    match (FinalCalls(t, parse, n - 1), parse(call.arguments))
    case (Some(calls), Some(arguments)) => Some(calls + [ToolCall(call.callID, call.name, arguments)])
    case _ => None
  }

  class ToolCalls {
    var calls: map<string, Call>
    var order: seq<string>
    var indexKeys: map<int, string>
    var started: set<string>
    var done: set<string>

    constructor ()
      ensures State() == NO_CALLS
    {
      calls, order, indexKeys, started, done := map[], [], map[], {}, {};
    }

    function State(): Table
      reads this
    {
      Table(calls, order, indexKeys, started, done)
    }

    method Ensure(outputIndex: int, itemID: string) returns (key: string)
      modifies this
      ensures State() == Ensured(old(State()), outputIndex, itemID)
      ensures key == ChosenKey(old(State()), outputIndex, itemID) && key in calls
    {
      key := itemID;
      if key == "" {
        key := KnownKey(State(), outputIndex);
      }
      if key == "" {
        key := IndexKey(outputIndex);
      }
      if itemID != "" {
        var oldKey := KnownKey(State(), outputIndex);
        if oldKey != "" && oldKey != key && oldKey in calls {
          var call := calls[oldKey];
          calls := calls - {oldKey};
          calls := calls[key := call];
          if oldKey in started {
            started := started + {key};
            started := started - {oldKey};
          }
          if oldKey in done {
            done := done + {key};
            done := done - {oldKey};
          }
          RenameInOrder(oldKey, key);
        }
        indexKeys := indexKeys[outputIndex := key];
      }
      if key !in calls {
        calls := calls[key := Call(outputIndex, itemID, "", "", "")];
        order := order + [key];
      }
      if itemID != "" {
        calls := calls[key := calls[key].(itemID := AppendValue(calls[key].itemID, itemID))];
      }
    }

    method RenameInOrder(oldKey: string, key: string)
      modifies this`order
      ensures order == ReplaceFirst(old(order), oldKey, key)
    {
      var i := 0;
      while i < |order| && order[i] != oldKey
        invariant i <= |order| && order == old(order)
        invariant forall j :: 0 <= j < i ==> order[j] != oldKey
      {
        i := i + 1;
      }
      if i < |order| {
        ReplaceFirstAt(order, oldKey, key, i);
        order := order[i := key];
      } else {
        NothingToReplace(order, oldKey, key);
      }
    }

    method StartEvent(call: Call) returns (events: seq<StreamEvent>)
      modifies this`started
      ensures (State(), events) == Start(old(State()), call)
    {
      if OwnKey(call) in started {
        return [];
      }
      started := started + {OwnKey(call)};
      events := [ToolCallStart(call.outputIndex, call.callID, call.name)];
    }

    method DoneEvent(call: Call) returns (events: seq<StreamEvent>)
      modifies this`done
      ensures (State(), events) == Complete(old(State()), call)
    {
      if OwnKey(call) in done {
        return [];
      }
      done := done + {OwnKey(call)};
      events := [ToolCallDone(call.outputIndex, call.callID, call.name)];
    }

    method AddItem(outputIndex: int, itemID: string, item: Item) returns (events: seq<StreamEvent>)
      modifies this
      ensures (State(), events) == Apply(old(State()), OutputItem(outputIndex, itemID, item))
    {
      if !item.functionCall {
        return [];
      }
      var id := if itemID == "" then item.id else itemID;
      var key := Ensure(outputIndex, id);
      var call := calls[key];
      call := call.(itemID := AppendValue(call.itemID, item.id));
      call := call.(callID := AppendValue(call.callID, item.callID));
      call := call.(name := AppendValue(call.name, item.name));
      if item.arguments != "" {
        call := call.(arguments := item.arguments);
      }
      calls := calls[key := call];
      events := StartEvent(call);
    }

    method AppendArguments(outputIndex: int, itemID: string, delta: string)
      modifies this
      ensures (State(), []) == Apply(old(State()), ArgumentsDelta(outputIndex, itemID, delta))
    {
      if delta == "" {
        return;
      }
      var key := Ensure(outputIndex, itemID);
      calls := calls[key := calls[key].(arguments := calls[key].arguments + delta)];
    }

    method SetArguments(outputIndex: int, itemID: string, arguments: string) returns (events: seq<StreamEvent>)
      modifies this
      ensures (State(), events) == Apply(old(State()), ArgumentsDone(outputIndex, itemID, arguments))
    {
      var key := Ensure(outputIndex, itemID);
      var call := calls[key].(arguments := arguments);
      calls := calls[key := call];
      events := StartEvent(call);
      var finished := DoneEvent(call);
      events := events + finished;
    }

    method DoneEvents() returns (events: seq<StreamEvent>)
      modifies this`started, this`done
      ensures (State(), events) == DoneUpTo(old(State()), |order|)
    {
      events := [];
      for k := 0 to |order|
        invariant (State(), events) == DoneUpTo(old(State()), k)
      {
        if order[k] in calls {
          ghost var before := events;
          var call := calls[order[k]];
          var first := StartEvent(call);
          events := events + first;
          var last := DoneEvent(call);
          events := events + last;
          assert before + first + last == before + (first + last);
        }
      }
    }

    method FinishedCalls(parse: Parse) returns (result: Option<seq<ToolCall>>)
      requires Sound(State())
      ensures result == FinalCalls(State(), parse, |order|)
    {
      var all: seq<ToolCall> := [];
      for k := 0 to |order|
        invariant FinalCalls(State(), parse, k) == Some(all)
      {
        var call := calls[order[k]];
        var arguments := parse(call.arguments);
        if arguments == None {
          FailureStays(State(), parse, k + 1, |order|);
          return None;
        }
        all := all + [ToolCall(call.callID, call.name, arguments.value)];
      }
      result := Some(all);
    }
  }

  lemma {:induction false} FailureStays(t: Table, parse: Parse, n: nat, m: nat)
    requires n <= m <= |t.order| && Sound(t) && FinalCalls(t, parse, n) == None
    ensures FinalCalls(t, parse, m) == None
    decreases m
  {
    if n < m {
      FailureStays(t, parse, n, m - 1);
    }
  }

  // ----- the same bookkeeping without keys: one entry per output index

  datatype Entry = Entry(itemID: string, callID: string, name: string, arguments: string)

  datatype Ledger = Ledger(entries: map<int, Entry>, order: seq<int>, started: set<int>, done: set<int>)

  const BLANK := Entry("", "", "", "")

  const NO_ENTRIES := Ledger(map[], [], {}, {})

  function EntryAt(s: Ledger, index: int): Entry { if index in s.entries then s.entries[index] else BLANK }

  function SetEntry(s: Ledger, index: int, entry: Entry): Ledger {
    s.(entries := s.entries[index := entry], order := if index in s.entries then s.order else s.order + [index])
  }

  function Updated(entry: Entry, e: Event): Entry {
    var id := AppendValue(entry.itemID, Carried(e));
    match e
    case OutputItem(_, _, item) =>
      Entry(AppendValue(id, item.id), AppendValue(entry.callID, item.callID), AppendValue(entry.name, item.name),
            if item.arguments != "" then item.arguments else entry.arguments)
    case ArgumentsDelta(_, _, delta) => entry.(itemID := id, arguments := entry.arguments + delta)
    case ArgumentsDone(_, _, arguments) => entry.(itemID := id, arguments := arguments)
  }

  function Begin(s: Ledger, index: int): (Ledger, seq<StreamEvent>) {
    var entry := EntryAt(s, index);
    (s.(started := s.started + {index}), if index in s.started then [] else [ToolCallStart(index, entry.callID, entry.name)])
  }

  function End(s: Ledger, index: int): (Ledger, seq<StreamEvent>) {
    var entry := EntryAt(s, index);
    (s.(done := s.done + {index}), if index in s.done then [] else [ToolCallDone(index, entry.callID, entry.name)])
  }

  function BeginAndEnd(s: Ledger, index: int): (Ledger, seq<StreamEvent>) {
    var (s1, e1) := Begin(s, index);
    var (s2, e2) := End(s1, index);
    (s2, e1 + e2)
  }

  function Track(s: Ledger, e: Event): (Ledger, seq<StreamEvent>) {
    if !Touches(e) then (s, []) else
    var s1 := SetEntry(s, e.index, Updated(EntryAt(s, e.index), e));
    match e
    case OutputItem(_, _, _) => Begin(s1, e.index)
    case ArgumentsDelta(_, _, _) => (s1, [])
    case ArgumentsDone(_, _, _) => BeginAndEnd(s1, e.index)
  }

  function KeyAt(s: Ledger, index: int): string { KeyOf(index, EntryAt(s, index).itemID) }

  /** An output's item id is present from its first event or never, unless it comes late
      and is the key the output has had all along; it only grows by extension, agrees with
      the item's own id, and keeps the outputs' keys apart. */
  ghost predicate Agrees(s: Ledger, e: Event) {
    Touches(e) ==> (e.OutputItem? ==> e.item.id <= Carried(e)) && NameGrows(s, e.index, Carried(e))
  }

  ghost predicate NameGrows(s: Ledger, index: int, id: string) {
    var had := EntryAt(s, index).itemID;
    && (id != "" ==> had <= id && (index in s.entries && had == "" ==> id == IndexKey(index)))
    && forall j :: j in s.entries && j != index ==> KeyAt(s, j) != KeyOf(index, if id == "" then had else id)
  }

  // ----- the keyed table and the ledger say the same

  function CallFrom(index: int, entry: Entry): Call { Call(index, entry.itemID, entry.callID, entry.name, entry.arguments) }

  ghost predicate KeysApart(s: Ledger) {
    forall i, j :: i in s.entries && j in s.entries && i != j ==> KeyAt(s, i) != KeyAt(s, j)
  }

  ghost predicate Listed(t: Table, s: Ledger) {
    && |t.order| == |s.order|
    && NoDuplicates(s.order)
    && (forall i :: i in s.entries <==> i in s.order)
    && (forall k :: 0 <= k < |s.order| ==> t.order[k] == KeyAt(s, s.order[k]))
  }

  ghost predicate Filed(t: Table, s: Ledger) {
    && (forall key :: key in t.calls ==> t.calls[key].outputIndex in s.entries && key == KeyAt(s, t.calls[key].outputIndex))
    && (forall i :: i in s.entries ==> KeyAt(s, i) in t.calls && t.calls[KeyAt(s, i)] == CallFrom(i, s.entries[i]))
    && (forall i :: KnownKey(t, i) == EntryAt(s, i).itemID)
  }

  ghost predicate Flagged(t: Table, flags: set<string>, s: Ledger, on: set<int>) {
    && on <= s.entries.Keys
    && (forall i :: i in on ==> KeyAt(s, i) in flags)
    && (forall key :: key in flags ==> key in t.calls && t.calls[key].outputIndex in on)
  }

  ghost predicate Matches(t: Table, s: Ledger) {
    && KeysApart(s) && Listed(t, s) && Filed(t, s)
    && Flagged(t, t.started, s, s.started) && Flagged(t, t.done, s, s.done)
  }

  lemma {:induction false} NothingToReplace(order: seq<string>, was: string, key: string)
    requires forall j :: 0 <= j < |order| ==> order[j] != was
    ensures ReplaceFirst(order, was, key) == order
  {
    if order != [] {
      NothingToReplace(order[1..], was, key);
    }
  }

  lemma {:induction false} ReplaceFirstAt(order: seq<string>, was: string, key: string, k: nat)
    requires k < |order| && order[k] == was && forall j :: 0 <= j < k ==> order[j] != was
    ensures ReplaceFirst(order, was, key) == order[k := key]
  {
    if k > 0 {
      ReplaceFirstAt(order[1..], was, key, k - 1);
    }
  }

  lemma OthersKeepKeys(s: Ledger, index: int, entry: Entry)
    ensures var s' := SetEntry(s, index, entry);
      && KeyAt(s', index) == KeyOf(index, entry.itemID)
      && EntryAt(s', index) == entry
      && forall j :: j != index ==> KeyAt(s', j) == KeyAt(s, j) && EntryAt(s', j) == EntryAt(s, j)
  {
    hide KeyOf;
  }

  // a call seen for the first time

  lemma NewIsListed(t: Table, t': Table, s: Ledger, index: int, entry: Entry)
    requires Listed(t, s) && index !in s.entries && t'.order == t.order + [KeyOf(index, entry.itemID)]
    ensures Listed(t', SetEntry(s, index, entry))
  {
    OthersKeepKeys(s, index, entry);
    hide KeyAt, KeyOf;
  }

  lemma NewIsFiled(t: Table, t': Table, s: Ledger, index: int, entry: Entry)
    requires var key := KeyOf(index, entry.itemID);
      Filed(t, s) && index !in s.entries && key !in t.calls && t'.calls == t.calls[key := CallFrom(index, entry)]
    requires forall i :: KnownKey(t', i) == if i == index then entry.itemID else KnownKey(t, i)
    ensures Filed(t', SetEntry(s, index, entry))
  {
    OthersKeepKeys(s, index, entry);
    hide KeyAt, KeyOf, KnownKey;
  }

  lemma NewIsFlagged(t: Table, t': Table, flags: set<string>, s: Ledger, on: set<int>, index: int, entry: Entry)
    requires Flagged(t, flags, s, on) && index !in s.entries
    requires forall key :: key in t.calls ==> key in t'.calls && t'.calls[key] == t.calls[key]
    ensures Flagged(t', flags, SetEntry(s, index, entry), on)
  {
    OthersKeepKeys(s, index, entry);
    hide KeyAt, KeyOf, KnownKey;
  }

  lemma NewEffect(t: Table, s: Ledger, index: int, id: string)
    requires Filed(t, s) && NameGrows(s, index, id) && index !in s.entries
    ensures var t', key := Ensured(t, index, id), KeyOf(index, id);
      && ChosenKey(t, index, id) == key && key !in t.calls
      && t'.order == t.order + [key] && t'.calls == t.calls[key := CallFrom(index, BLANK.(itemID := id))]
      && t'.started == t.started && t'.done == t.done
      && forall i :: KnownKey(t', i) == if i == index then id else KnownKey(t, i)
  {
    hide IndexKey, ReplaceFirst;
    assert KnownKey(t, index) == "" && EntryAt(s, index) == BLANK;
  }

  lemma KeysStayApart(s: Ledger, index: int, entry: Entry)
    requires KeysApart(s)
    requires forall j :: j in s.entries && j != index ==> KeyAt(s, j) != KeyOf(index, entry.itemID)
    ensures KeysApart(SetEntry(s, index, entry))
  {
    OthersKeepKeys(s, index, entry);
    hide KeyAt, KeyOf;
  }

  lemma NewCallMatches(t: Table, s: Ledger, index: int, id: string)
    requires Matches(t, s) && NameGrows(s, index, id) && index !in s.entries
    ensures var s' := SetEntry(s, index, BLANK.(itemID := id));
      Matches(Ensured(t, index, id), s') && ChosenKey(t, index, id) == KeyAt(s', index)
  {
    hide KeyAt, KeyOf, KnownKey, ChosenKey, Filed, Flagged, Listed, KeysApart, Ensured;
    var t', entry := Ensured(t, index, id), BLANK.(itemID := id);
    OthersKeepKeys(s, index, entry);
    NewEffect(t, s, index, id);
    KeysStayApart(s, index, entry);
    NewIsListed(t, t', s, index, entry);
    NewIsFiled(t, t', s, index, entry);
    NewIsFlagged(t, t', t.started, s, s.started, index, entry);
    NewIsFlagged(t, t', t.done, s, s.done, index, entry);
  }

  // a call whose id has grown

  lemma RenamedIsListed(t: Table, t': Table, s: Ledger, index: int, entry: Entry, k: nat)
    requires Listed(t, s) && k < |s.order| && s.order[k] == index && t'.order == t.order[k := KeyOf(index, entry.itemID)]
    ensures Listed(t', SetEntry(s, index, entry))
  {
    OthersKeepKeys(s, index, entry);
    hide KeyAt, KeyOf;
  }

  lemma RenamedIsFiled(t: Table, t': Table, s: Ledger, index: int, entry: Entry)
    requires KeysApart(s) && Filed(t, s) && index in s.entries
    requires var key := KeyOf(index, entry.itemID);
      key !in t.calls && t'.calls == (t.calls - {KeyAt(s, index)})[key := CallFrom(index, entry)]
    requires forall i :: KnownKey(t', i) == if i == index then entry.itemID else KnownKey(t, i)
    ensures Filed(t', SetEntry(s, index, entry))
  {
    OthersKeepKeys(s, index, entry);
    hide KeyAt, KeyOf, KnownKey;
  }

  lemma RenamedIsFlagged(t: Table, t': Table, flags: set<string>, s: Ledger, on: set<int>, index: int, entry: Entry)
    requires KeysApart(s) && Filed(t, s) && Flagged(t, flags, s, on) && index in s.entries
    requires var key := KeyOf(index, entry.itemID);
      key !in t.calls && t'.calls == (t.calls - {KeyAt(s, index)})[key := CallFrom(index, entry)]
    ensures Flagged(t', Moved(flags, KeyAt(s, index), KeyOf(index, entry.itemID)), SetEntry(s, index, entry), on)
  {
    OthersKeepKeys(s, index, entry);
    hide KeyAt, KeyOf, KnownKey;
  }

  lemma RenamedEffect(t: Table, s: Ledger, index: int, id: string, k: nat)
    requires KeysApart(s) && Listed(t, s) && Filed(t, s) && NameGrows(s, index, id) && index in s.entries
    requires id != "" && s.entries[index].itemID != "" && id != s.entries[index].itemID && k < |s.order| && s.order[k] == index
    ensures var t', was := Ensured(t, index, id), KeyAt(s, index);
      && ChosenKey(t, index, id) == KeyOf(index, id) == id && id !in t.calls
      && t'.order == t.order[k := id]
      && t'.calls == (t.calls - {was})[id := CallFrom(index, s.entries[index].(itemID := id))]
      && t'.started == Moved(t.started, was, id) && t'.done == Moved(t.done, was, id)
      && forall i :: KnownKey(t', i) == if i == index then id else KnownKey(t, i)
  {
    hide IndexKey, ReplaceFirst, Moved;
    var was := KeyAt(s, index);
    assert KnownKey(t, index) == was != "" && was in t.calls;
    assert id !in t.calls;
    assert ReplaceFirst(t.order, was, id) == t.order[k := id] by {
      KeysDiffer(t, s, k);
      ReplaceFirstAt(t.order, was, id, k);
    }
  }

  lemma KeysDiffer(t: Table, s: Ledger, k: nat)
    requires KeysApart(s) && Listed(t, s) && k < |s.order|
    ensures forall j :: 0 <= j < k ==> t.order[j] != t.order[k]
  {
    hide KeyAt;
    forall j | 0 <= j < k
      ensures t.order[j] != t.order[k]
    {
      assert s.order[j] in s.entries && s.order[k] in s.entries;
    }
  }

  lemma RenamedCallMatches(t: Table, s: Ledger, index: int, id: string)
    requires Matches(t, s) && NameGrows(s, index, id) && index in s.entries
    requires id != "" && s.entries[index].itemID != "" && id != s.entries[index].itemID
    ensures var s' := SetEntry(s, index, s.entries[index].(itemID := id));
      Matches(Ensured(t, index, id), s') && ChosenKey(t, index, id) == KeyAt(s', index)
  {
    hide KeyAt, KeyOf, KnownKey, ChosenKey, Filed, Flagged, KeysApart, Ensured, Moved;
    var t', entry := Ensured(t, index, id), s.entries[index].(itemID := id);
    var k :| 0 <= k < |s.order| && s.order[k] == index;
    hide Listed;
    OthersKeepKeys(s, index, entry);
    RenamedEffect(t, s, index, id, k);
    KeysStayApart(s, index, entry);
    RenamedIsListed(t, t', s, index, entry, k);
    RenamedIsFiled(t, t', s, index, entry);
    RenamedIsFlagged(t, t', t.started, s, s.started, index, entry);
    RenamedIsFlagged(t, t', t.done, s, s.done, index, entry);
  }

  // a call found again

  lemma SameKeys(s: Ledger, index: int, entry: Entry)
    requires index in s.entries && KeyOf(index, entry.itemID) == KeyAt(s, index)
    ensures var s' := SetEntry(s, index, entry);
      && s' == s.(entries := s'.entries) && (forall i :: i in s'.entries <==> i in s.entries)
      && forall i :: KeyAt(s', i) == KeyAt(s, i) && EntryAt(s', i) == if i == index then entry else EntryAt(s, i)
  {
    hide KeyOf;
  }

  lemma RewrittenIsFiled(t: Table, t': Table, s: Ledger, index: int, entry: Entry)
    requires KeysApart(s) && Filed(t, s) && index in s.entries && KeyOf(index, entry.itemID) == KeyAt(s, index)
    requires t'.calls == t.calls[KeyAt(s, index) := CallFrom(index, entry)]
    requires forall i :: KnownKey(t', i) == if i == index then entry.itemID else KnownKey(t, i)
    ensures Filed(t', SetEntry(s, index, entry)) && KeysApart(SetEntry(s, index, entry))
  {
    hide KeyOf, KnownKey;
    OthersKeepKeys(s, index, entry);
    assert KeyAt(SetEntry(s, index, entry), index) == KeyAt(s, index);
    hide KeyAt, SetEntry;
    var s' := SetEntry(s, index, entry);
    EntriesOfSet(s, index, entry);
    assert forall i :: KeyAt(s', i) == KeyAt(s, i);
    assert KeysApart(s');
  }

  lemma EntriesOfSet(s: Ledger, index: int, entry: Entry)
    ensures SetEntry(s, index, entry).entries == s.entries[index := entry]
  {
  }

  lemma RewrittenIsFlagged(t: Table, t': Table, flags: set<string>, s: Ledger, on: set<int>, index: int, entry: Entry)
    requires Filed(t, s) && Flagged(t, flags, s, on) && index in s.entries && KeyOf(index, entry.itemID) == KeyAt(s, index)
    requires t'.calls == t.calls[KeyAt(s, index) := CallFrom(index, entry)]
    ensures Flagged(t', flags, SetEntry(s, index, entry), on)
  {
    SameKeys(s, index, entry);
    hide KeyAt, KnownKey;
  }

  lemma RewrittenIsListed(t: Table, t': Table, s: Ledger, index: int, entry: Entry)
    requires Listed(t, s) && index in s.entries && KeyOf(index, entry.itemID) == KeyAt(s, index) && t'.order == t.order
    ensures Listed(t', SetEntry(s, index, entry))
  {
    SameKeys(s, index, entry);
    hide KeyAt;
  }

  /** A call that keeps its key, though perhaps as an id from now on. */
  lemma ReplacedMatches(t: Table, t': Table, s: Ledger, index: int, entry: Entry)
    requires Matches(t, s) && index in s.entries && KeyOf(index, entry.itemID) == KeyAt(s, index)
    requires t'.calls == t.calls[KeyAt(s, index) := CallFrom(index, entry)]
    requires t' == t.(calls := t'.calls, indexKeys := t'.indexKeys)
    requires forall i :: KnownKey(t', i) == if i == index then entry.itemID else KnownKey(t, i)
    ensures Matches(t', SetEntry(s, index, entry))
  {
    hide KeyAt, KeyOf, KnownKey, Listed, Filed, Flagged, KeysApart;
    RewrittenIsFiled(t, t', s, index, entry);
    RewrittenIsListed(t, t', s, index, entry);
    RewrittenIsFlagged(t, t', t.started, s, s.started, index, entry);
    RewrittenIsFlagged(t, t', t.done, s, s.done, index, entry);
  }

  lemma RewrittenMatches(t: Table, t': Table, s: Ledger, index: int, entry: Entry)
    requires Matches(t, s) && index in s.entries && entry.itemID == s.entries[index].itemID
    requires t'.calls == t.calls[KeyAt(s, index) := CallFrom(index, entry)]
    requires t' == t.(calls := t'.calls, indexKeys := t'.indexKeys)
    requires forall i :: KnownKey(t', i) == KnownKey(t, i)
    ensures Matches(t', SetEntry(s, index, entry))
  {
    KnownIsOwn(t, s, index);
    assert KeyOf(index, entry.itemID) == KeyAt(s, index);
    hide KeyAt, KeyOf, KnownKey, Matches;
    ReplacedMatches(t, t', s, index, entry);
  }

  lemma KnownIsOwn(t: Table, s: Ledger, index: int)
    requires Matches(t, s)
    ensures KnownKey(t, index) == EntryAt(s, index).itemID
  {
    hide KeyAt, KnownKey;
  }

  lemma KnownCallMatches(t: Table, s: Ledger, index: int, id: string)
    requires Matches(t, s) && index in s.entries && (id == "" || id == s.entries[index].itemID)
    ensures Matches(Ensured(t, index, id), s) && ChosenKey(t, index, id) == KeyAt(s, index)
  {
    KnownEffect(t, s, index, id);
    hide KeyAt, KnownKey, ChosenKey, Matches, Ensured, KeyOf;
    assert SetEntry(s, index, s.entries[index]) == s;
    RewrittenMatches(t, Ensured(t, index, id), s, index, s.entries[index]);
  }

  lemma KnownEffect(t: Table, s: Ledger, index: int, id: string)
    requires Filed(t, s) && index in s.entries && (id == "" || id == s.entries[index].itemID)
    ensures var t' := Ensured(t, index, id);
      && ChosenKey(t, index, id) == KeyAt(s, index)
      && t'.calls == t.calls[KeyAt(s, index) := CallFrom(index, s.entries[index])]
      && t' == t.(calls := t'.calls, indexKeys := t'.indexKeys)
      && forall i :: KnownKey(t', i) == KnownKey(t, i)
  {
    hide IndexKey, ReplaceFirst;
    assert KnownKey(t, index) == s.entries[index].itemID;
    assert KeyAt(s, index) in t.calls;
  }

  lemma EnsuredMatches(t: Table, s: Ledger, index: int, id: string)
    requires Matches(t, s) && NameGrows(s, index, id)
    ensures var s' := SetEntry(s, index, EntryAt(s, index).(itemID := AppendValue(EntryAt(s, index).itemID, id)));
      Matches(Ensured(t, index, id), s') && ChosenKey(t, index, id) == KeyAt(s', index)
  {
    hide Matches, Ensured, KeyAt, KeyOf, KnownKey, ChosenKey;
    var had := EntryAt(s, index).itemID;
    assert AppendValue(had, id) == if id == "" then had else id;
    if index !in s.entries {
      NewCallMatches(t, s, index, id);
    } else if id == "" || id == had {
      KnownCallMatches(t, s, index, id);
      assert SetEntry(s, index, s.entries[index]) == s;
    } else if had == "" {
      LateKeyMatches(t, s, index, id);
    } else {
      RenamedCallMatches(t, s, index, id);
    }
  }

  /** A late id that is the key the call already has. */
  lemma LateKeyMatches(t: Table, s: Ledger, index: int, id: string)
    requires Matches(t, s) && index in s.entries && s.entries[index].itemID == "" && id == IndexKey(index) != ""
    ensures var s' := SetEntry(s, index, s.entries[index].(itemID := id));
      Matches(Ensured(t, index, id), s') && ChosenKey(t, index, id) == KeyAt(s', index)
  {
    var entry := s.entries[index].(itemID := id);
    LateKeyEffect(t, s, index, id);
    OthersKeepKeys(s, index, entry);
    assert KeyOf(index, id) == id == KeyAt(s, index);
    hide KeyAt, KeyOf, KnownKey, ChosenKey, Matches, Ensured;
    ReplacedMatches(t, Ensured(t, index, id), s, index, entry);
  }

  lemma LateKeyEffect(t: Table, s: Ledger, index: int, id: string)
    requires Filed(t, s) && index in s.entries && s.entries[index].itemID == "" && id == IndexKey(index) != ""
    ensures var t' := Ensured(t, index, id);
      && ChosenKey(t, index, id) == id
      && t'.calls == t.calls[KeyAt(s, index) := CallFrom(index, s.entries[index].(itemID := id))]
      && t' == t.(calls := t'.calls, indexKeys := t'.indexKeys)
      && forall i :: KnownKey(t', i) == if i == index then id else KnownKey(t, i)
  {
    hide ReplaceFirst, IndexKey;
    assert KnownKey(t, index) == "";
    assert KeyAt(s, index) == id && id in t.calls;
  }

  // starting and finishing

  lemma StartMatches(t: Table, s: Ledger, index: int)
    requires Matches(t, s) && index in s.entries
    ensures var (t1, e1) := Start(t, CallFrom(index, s.entries[index]));
      Matches(t1, Begin(s, index).0) && e1 == Begin(s, index).1
  {
    hide KeyOf, Listed, KnownKey;
    assert OwnKey(CallFrom(index, s.entries[index])) == KeyAt(s, index);
    var t1, s1 := Start(t, CallFrom(index, s.entries[index])).0, Begin(s, index).0;
    assert forall i :: KeyAt(s1, i) == KeyAt(s, i);
    assert KeyAt(s, index) in t.started <==> index in s.started;
    FlagsOnly(t, t1, s, s1);
  }

  lemma CompleteMatches(t: Table, s: Ledger, index: int)
    requires Matches(t, s) && index in s.entries
    ensures var (t1, e1) := Complete(t, CallFrom(index, s.entries[index]));
      Matches(t1, End(s, index).0) && e1 == End(s, index).1
  {
    hide KeyOf, Listed, KnownKey;
    assert OwnKey(CallFrom(index, s.entries[index])) == KeyAt(s, index);
    var t1, s1 := Complete(t, CallFrom(index, s.entries[index])).0, End(s, index).0;
    assert forall i :: KeyAt(s1, i) == KeyAt(s, i);
    assert KeyAt(s, index) in t.done <==> index in s.done;
    FlagsOnly(t, t1, s, s1);
  }

  lemma FlagsOnly(t: Table, t': Table, s: Ledger, s': Ledger)
    requires KeysApart(s) && Listed(t, s) && Filed(t, s)
    requires t' == t.(started := t'.started, done := t'.done) && s' == s.(started := s'.started, done := s'.done)
    ensures KeysApart(s') && Listed(t', s') && Filed(t', s')
  {
    hide KeyOf;
    assert forall i :: KeyAt(s', i) == KeyAt(s, i);
    assert forall i :: KnownKey(t', i) == KnownKey(t, i);
    hide KeyAt, KnownKey;
  }

  // ----- whole runs

  lemma PutMatches(t: Table, s: Ledger, index: int, entry: Entry)
    requires Matches(t, s) && index in s.entries && entry.itemID == s.entries[index].itemID
    ensures Matches(Put(t, KeyAt(s, index), CallFrom(index, entry)), SetEntry(s, index, entry))
  {
    hide KeyAt, Matches;
    RewrittenMatches(t, Put(t, KeyAt(s, index), CallFrom(index, entry)), s, index, entry);
  }

  lemma MatchedCall(t: Table, s: Ledger, index: int)
    requires Matches(t, s) && index in s.entries
    ensures KeyAt(s, index) in t.calls && t.calls[KeyAt(s, index)] == CallFrom(index, s.entries[index])
  {
    hide KeyAt;
  }

  /** One event: the keyed accumulator and the ledger move together. */
  lemma ApplyMatches(t: Table, s: Ledger, e: Event)
    requires Matches(t, s) && Agrees(s, e)
    ensures Matches(Apply(t, e).0, Track(s, e).0) && Apply(t, e).1 == Track(s, e).1
  {
    hide Matches, KeyAt, KeyOf, ChosenKey, Ensured, NameGrows, Start, Complete, KnownKey;
    if Touches(e) {
      var index, id, before := e.index, Carried(e), EntryAt(s, e.index);
      EnsuredMatches(t, s, index, id);
      var named := before.(itemID := AppendValue(before.itemID, id));
      var t1, s1, key := Ensured(t, index, id), SetEntry(s, index, named), ChosenKey(t, index, id);
      MatchedCall(t1, s1, index);
      var after := Updated(before, e);
      assert after.itemID == named.itemID by {
        IdAgrees(s, e);
      }
      PutMatches(t1, s1, index, after);
      var t2, s2 := Put(t1, key, CallFrom(index, after)), SetEntry(s1, index, after);
      assert s2 == SetEntry(s, index, after);
      match e
      case OutputItem(_, _, item) =>
        StartMatches(t2, s2, index);
      case ArgumentsDelta(_, _, _) =>
      case ArgumentsDone(_, _, _) =>
        StartMatches(t2, s2, index);
        CompleteMatches(Start(t2, CallFrom(index, after)).0, Begin(s2, index).0, index);
    }
  }

  lemma IdAgrees(s: Ledger, e: Event)
    requires Agrees(s, e) && Touches(e)
    ensures var had := EntryAt(s, e.index).itemID; Updated(EntryAt(s, e.index), e).itemID == AppendValue(had, Carried(e))
  {
    hide KeyAt, KeyOf;
    if e.OutputItem? {
      var had, id := EntryAt(s, e.index).itemID, Carried(e);
      assert AppendValue(had, id) == if id == "" then had else id;
      assert id == "" ==> e.item.id == "";
      assert AppendValue(id, e.item.id) == id;
    }
  }

  function Run(events: seq<Event>): (Table, seq<StreamEvent>) {
    if events == [] then (NO_CALLS, []) else
    var (t1, e1) := Run(events[..|events| - 1]);
    var (t2, e2) := Apply(t1, events[|events| - 1]);
    (t2, e1 + e2)
  }

  function TrackAll(events: seq<Event>): (Ledger, seq<StreamEvent>) {
    if events == [] then (NO_ENTRIES, []) else
    var (s1, e1) := TrackAll(events[..|events| - 1]);
    var (s2, e2) := Track(s1, events[|events| - 1]);
    (s2, e1 + e2)
  }

  ghost predicate AllAgree(events: seq<Event>) {
    forall n :: 0 <= n < |events| ==> Agrees(TrackAll(events[..n]).0, events[n])
  }

  lemma AgreeBefore(events: seq<Event>, n: nat)
    requires AllAgree(events) && n <= |events|
    ensures AllAgree(events[..n])
  {
    hide Agrees, TrackAll;
    forall m | 0 <= m < n
      ensures Agrees(TrackAll(events[..n][..m]).0, events[..n][m])
    {
      assert events[..n][..m] == events[..m];
    }
  }

  /** Re-keying is invisible: the keyed accumulator emits what the ledger emits. */
  lemma {:induction false} RunMatches(events: seq<Event>)
    requires AllAgree(events)
    ensures Matches(Run(events).0, TrackAll(events).0) && Run(events).1 == TrackAll(events).1
  {
    if events == [] {
    } else {
      hide Matches, Agrees, Apply, Track;
      var n := |events| - 1;
      AgreeBefore(events, n);
      RunMatches(events[..n]);
      ApplyMatches(Run(events[..n]).0, TrackAll(events[..n]).0, events[n]);
    }
  }

  /** Order has no duplicates and lists exactly the keys; each call sits under its own key. */
  ghost predicate WellKept(t: Table) {
    && NoDuplicates(t.order)
    && (forall key :: key in t.calls <==> key in t.order)
    && (forall key :: key in t.calls ==> OwnKey(t.calls[key]) == key)
    && t.started <= t.calls.Keys && t.done <= t.calls.Keys
  }

  lemma MatchedIsWellKept(t: Table, s: Ledger)
    requires Matches(t, s)
    ensures WellKept(t)
  {
    forall key | key in t.calls
      ensures OwnKey(t.calls[key]) == key && key in t.order
    {
      var i := t.calls[key].outputIndex;
      assert i in s.order;
      var k :| 0 <= k < |s.order| && s.order[k] == i;
      assert t.order[k] == key;
    }
    hide KeyAt;
    forall j, k | 0 <= j < k < |t.order|
      ensures t.order[j] != t.order[k]
    {
      KeysDiffer(t, s, k);
    }
    forall k | 0 <= k < |t.order|
      ensures t.order[k] in t.calls
    {
      assert s.order[k] in s.entries;
    }
  }

  // ----- boundary events and contents, index by index

  lemma BeginBrackets(s: Ledger, index: int, sent: seq<StreamEvent>)
    requires Bracketed(sent, s.started, s.done)
    ensures var (s1, e1) := Begin(s, index); Bracketed(sent + e1, s1.started, s1.done)
  {
    var (s1, e1) := Begin(s, index);
    if index in s.started {
      assert s1.started == s.started && sent + e1 == sent;
    } else {
      BracketGrows(sent, e1[0], s.started, s.done);
    }
  }

  lemma BeginAndEndBrackets(s: Ledger, index: int, sent: seq<StreamEvent>)
    requires Bracketed(sent, s.started, s.done)
    ensures var (s1, e1) := BeginAndEnd(s, index); Bracketed(sent + e1, s1.started, s1.done)
  {
    hide Bracketed;
    BeginBrackets(s, index, sent);
    var (s1, e1) := Begin(s, index);
    var (s2, e2) := End(s1, index);
    assert sent + (e1 + e2) == sent + e1 + e2;
    if index in s1.done {
      assert s2.done == s1.done && sent + e1 + e2 == sent + e1;
    } else {
      BracketGrows(sent + e1, e2[0], s1.started, s1.done);
    }
  }

  lemma {:induction false} TrackBrackets(events: seq<Event>)
    ensures Bracketed(TrackAll(events).1, TrackAll(events).0.started, TrackAll(events).0.done)
  {
    if events != [] {
      hide Bracketed, Updated;
      var n := |events| - 1;
      TrackBrackets(events[..n]);
      var (s, sent) := TrackAll(events[..n]);
      var e := events[n];
      var s1 := SetEntry(s, e.index, Updated(EntryAt(s, e.index), e));
      assert sent + [] == sent;
      BeginBrackets(s1, e.index, sent);
      BeginAndEndBrackets(s1, e.index, sent);
    }
  }

  function EndUpTo(s: Ledger, n: nat): (Ledger, seq<StreamEvent>)
    requires n <= |s.order|
  {
    if n == 0 then (s, []) else
    var (s1, e1) := EndUpTo(s, n - 1);
    var (s2, e2) := BeginAndEnd(s1, s.order[n - 1]);
    (s2, e1 + e2)
  }

  lemma {:induction false} DoneUpToMatches(t: Table, s: Ledger, n: nat)
    requires Matches(t, s) && n <= |t.order| == |s.order|
    ensures var (t1, e1) := DoneUpTo(t, n); var (s1, f1) := EndUpTo(s, n); Matches(t1, s1) && e1 == f1 && s1.entries == s.entries
  {
    hide Matches, StartAndFinish, BeginAndEnd, CallFrom;
    if n > 0 {
      DoneUpToMatches(t, s, n - 1);
      OrderedIsMatched(t, s, n - 1);
      BothMatch(DoneUpTo(t, n - 1).0, EndUpTo(s, n - 1).0, s.order[n - 1]);
    }
  }

  lemma BothMatch(t: Table, s: Ledger, index: int)
    requires Matches(t, s) && index in s.entries
    ensures var (t1, e1) := StartAndFinish(t, CallFrom(index, s.entries[index]));
      Matches(t1, BeginAndEnd(s, index).0) && e1 == BeginAndEnd(s, index).1
    ensures BeginAndEnd(s, index).0.entries == s.entries
  {
    hide Matches, Start, Complete;
    StartMatches(t, s, index);
    CompleteMatches(Start(t, CallFrom(index, s.entries[index])).0, Begin(s, index).0, index);
  }

  lemma OrderedIsMatched(t: Table, s: Ledger, k: nat)
    requires Matches(t, s) && k < |t.order|
    ensures k < |s.order| && s.order[k] in s.entries && t.order[k] in t.calls
    ensures t.calls[t.order[k]] == CallFrom(s.order[k], s.entries[s.order[k]])
  {
    hide KeyAt;
  }

  function Members(s: seq<int>, n: nat): set<int>
    requires n <= |s|
  {
    if n == 0 then {} else Members(s, n - 1) + {s[n - 1]}
  }

  lemma {:induction false} MembersAreAll(s: seq<int>, n: nat, i: int)
    requires n <= |s|
    ensures i in Members(s, n) <==> i in s[..n]
  {
    if n > 0 {
      MembersAreAll(s, n - 1, i);
      assert s[..n] == s[..n - 1] + [s[n - 1]];
    }
  }

  lemma {:induction false} EndUpToBrackets(s: Ledger, sent: seq<StreamEvent>, n: nat)
    requires Bracketed(sent, s.started, s.done) && n <= |s.order|
    ensures var (s1, e1) := EndUpTo(s, n);
      && Bracketed(sent + e1, s1.started, s1.done)
      && s1.started == s.started + Members(s.order, n) && s1.done == s.done + Members(s.order, n)
  {
    hide Bracketed, BeginAndEnd;
    if n == 0 {
      assert sent + [] == sent;
    } else {
      EndUpToBrackets(s, sent, n - 1);
      var (s1, e1) := EndUpTo(s, n - 1);
      var (s2, e2) := BeginAndEnd(s1, s.order[n - 1]);
      BeginAndEndBrackets(s1, s.order[n - 1], sent + e1);
      BothFlags(s1, s.order[n - 1]);
      assert sent + (e1 + e2) == sent + e1 + e2;
    }
  }

  lemma BothFlags(s: Ledger, index: int)
    ensures var s1 := BeginAndEnd(s, index).0; s1.started == s.started + {index} && s1.done == s.done + {index}
  {
  }

  /** The events of one output, and what they add up to on their own. */
  function Of(events: seq<Event>, index: int): seq<Event> {
    if events == [] then [] else
    var e := events[|events| - 1];
    Of(events[..|events| - 1], index) + if Touches(e) && e.index == index then [e] else []
  }

  function Gathered(own: seq<Event>): Entry {
    if own == [] then BLANK else Updated(Gathered(own[..|own| - 1]), own[|own| - 1])
  }

  function FirstSeen(events: seq<Event>): seq<int> {
    if events == [] then [] else
    var seen, e := FirstSeen(events[..|events| - 1]), events[|events| - 1];
    if Touches(e) && e.index !in seen then seen + [e.index] else seen
  }

  lemma NothingGathered(index: int)
    ensures Gathered(Of([], index)) == BLANK
  {
  }

  lemma OfGrows(events: seq<Event>, index: int)
    requires events != []
    ensures var before, e := events[..|events| - 1], events[|events| - 1];
      Gathered(Of(events, index)) == if Touches(e) && e.index == index then Updated(Gathered(Of(before, index)), e) else Gathered(Of(before, index))
  {
    hide Updated;
    var own, e := Of(events[..|events| - 1], index), events[|events| - 1];
    assert (own + [e])[..|own|] == own && own + [] == own;
  }

  lemma TrackShape(s: Ledger, e: Event)
    ensures var s1 := Track(s, e).0;
      if !Touches(e) then s1 == s else
      && s1.entries == s.entries[e.index := Updated(EntryAt(s, e.index), e)]
      && s1.order == (if e.index in s.entries then s.order else s.order + [e.index])
      && s.started <= s1.started <= s.started + {e.index} && s.done <= s1.done <= s.done + {e.index}
  {
    hide Updated;
  }

  lemma {:induction false} LedgerGathers(events: seq<Event>)
    ensures var s := TrackAll(events).0;
      && s.order == FirstSeen(events) && (forall i :: i in s.entries <==> i in s.order)
      && s.started <= s.entries.Keys && s.done <= s.entries.Keys
      && forall i :: EntryAt(s, i) == Gathered(Of(events, i))
  {
    hide Updated, Track, Gathered, Of, Touches;
    if events == [] {
      forall i
        ensures EntryAt(NO_ENTRIES, i) == Gathered(Of(events, i))
      {
        NothingGathered(i);
      }
    } else {
      var n := |events| - 1;
      LedgerGathers(events[..n]);
      TrackShape(TrackAll(events[..n]).0, events[n]);
      forall i
        ensures EntryAt(TrackAll(events).0, i) == Gathered(Of(events, i))
      {
        OfGrows(events, i);
      }
    }
  }

  /** Every output seen, as a set. */
  function Seen(events: seq<Event>): set<int> { Members(FirstSeen(events), |FirstSeen(events)|) }

  /** For every run whose ids agree: the table is well kept, holds one call per output in
      first-seen order made of that output's own events, and completion leaves each
      output with exactly one start before exactly one done event. */
  lemma {:induction false} EveryCallIsReportedOnce(events: seq<Event>)
    requires AllAgree(events)
    ensures var (t, sent) := Run(events); var seen := FirstSeen(events);
      && WellKept(t) && |t.order| == |seen|
      && (forall k :: 0 <= k < |seen| ==>
        t.order[k] in t.calls && t.calls[t.order[k]] == CallFrom(seen[k], Gathered(Of(events, seen[k]))))
      && Bracketed(sent + DoneUpTo(t, |t.order|).1, Seen(events), Seen(events))
  {
    hide Matches, Bracketed, AllAgree, Gathered, Of, FirstSeen, Run, TrackAll, DoneUpTo, EndUpTo, Members, WellKept;
    var (t, sent) := Run(events);
    var s := TrackAll(events).0;
    RunMatches(events);
    MatchedIsWellKept(t, s);
    LedgerGathers(events);
    SameLength(t, s);
    forall k | 0 <= k < |t.order|
      ensures t.order[k] in t.calls && t.calls[t.order[k]] == CallFrom(s.order[k], EntryAt(s, s.order[k]))
    {
      OrderedIsMatched(t, s, k);
    }
    TrackBrackets(events);
    DoneUpToMatches(t, s, |t.order|);
    EndUpToBrackets(s, sent, |s.order|);
    FlagsAreSeen(s, events);
  }

  lemma FlagsAreSeen(s: Ledger, events: seq<Event>)
    requires s.order == FirstSeen(events) && (forall i :: i in s.entries <==> i in s.order)
    requires s.started <= s.entries.Keys && s.done <= s.entries.Keys
    ensures s.started + Seen(events) == Seen(events) == s.done + Seen(events)
  {
    assert s.order[..|s.order|] == s.order;
    forall i
      ensures i in Seen(events) <==> i in s.order
    {
      MembersAreAll(s.order, |s.order|, i);
    }
    forall i | i in s.started || i in s.done
      ensures i in Seen(events)
    {
      assert i in s.entries;
    }
  }

  lemma SameLength(t: Table, s: Ledger)
    requires Matches(t, s)
    ensures |t.order| == |s.order|
  {
  }

  /** The decoded calls, in first-seen order; none if any argument text is not an object. */
  lemma {:induction false} FinalCallsAre(t: Table, events: seq<Event>, parse: Parse, n: nat)
    requires Sound(t) && n <= |t.order| == |FirstSeen(events)|
    requires forall k :: 0 <= k < |t.order| ==>
      t.calls[t.order[k]] == CallFrom(FirstSeen(events)[k], Gathered(Of(events, FirstSeen(events)[k])))
    ensures var r, seen := FinalCalls(t, parse, n), FirstSeen(events);
      && (r.Some? <==> forall k :: 0 <= k < n ==> parse(Gathered(Of(events, seen[k])).arguments).Some?)
      && (r.Some? ==> |r.value| == n && forall k :: 0 <= k < n ==>
        var own := Gathered(Of(events, seen[k])); r.value[k] == ToolCall(own.callID, own.name, parse(own.arguments).value))
  {
    hide Gathered, Of, FirstSeen;
    if n > 0 {
      FinalCallsAre(t, events, parse, n - 1);
    }
  }

  lemma CompletedCalls(events: seq<Event>, parse: Parse)
    requires AllAgree(events)
    ensures var t, seen := Run(events).0, FirstSeen(events);
      && Sound(t) && |t.order| == |seen|
      && var r := FinalCalls(t, parse, |t.order|);
      && (r.Some? <==> forall k :: 0 <= k < |seen| ==> parse(Gathered(Of(events, seen[k])).arguments).Some?)
      && (r.Some? ==> |r.value| == |seen| && forall k :: 0 <= k < |seen| ==>
        var own := Gathered(Of(events, seen[k])); r.value[k] == ToolCall(own.callID, own.name, parse(own.arguments).value))
  {
    hide AllAgree, Run, FirstSeen, Gathered, Of, WellKept, Bracketed, DoneUpTo;
    EveryCallIsReportedOnce(events);
    FinalCallsAre(Run(events).0, events, parse, |Run(events).0.order|);
  }

  // ----- which streams agree

  lemma {:induction false} RenderIsUnsigned(n: nat)
    ensures Render(n) != "" && Render(n)[0] != '-'
  {
    if n >= 10 {
      RenderIsUnsigned(n / 10);
    }
  }

  function Signed(i: int): string { if i < 0 then "-" + Render(-i) else Render(i) }

  lemma SignedIsInjective(i: int, j: int)
    requires Signed(i) == Signed(j)
    ensures i == j
  {
    hide Render;
    RenderIsUnsigned(if i < 0 then -i else i);
    RenderIsUnsigned(if j < 0 then -j else j);
    if i < 0 && j < 0 {
      assert Signed(i)[1..] == Render(-i) && Signed(j)[1..] == Render(-j);
      RenderIsInjective(-i, -j);
    } else if i >= 0 && j >= 0 {
      RenderIsInjective(i, j);
    }
  }

  lemma IndexKeysDiffer(i: int, j: int)
    requires IndexKey(i) == IndexKey(j)
    ensures i == j
  {
    hide Signed;
    assert IndexKey(i)[6..] == Signed(i) && IndexKey(j)[6..] == Signed(j);
    SignedIsInjective(i, j);
  }

  /** Every event of an output carries the output's id, perhaps none; ids of different
      outputs differ from each other and from the keys of outputs without one. */
  ghost predicate Steady(events: seq<Event>, id: int -> string) {
    && (forall k :: 0 <= k < |events| && Touches(events[k]) ==>
      Carried(events[k]) == id(events[k].index) && (events[k].OutputItem? ==> events[k].item.id <= id(events[k].index)))
    && forall i, j :: i in FirstSeen(events) && j in FirstSeen(events) && i != j && id(i) != "" ==> id(i) != KeyOf(j, id(j))
  }

  lemma SteadyBefore(events: seq<Event>, id: int -> string, n: nat)
    requires Steady(events, id) && n <= |events|
    ensures Steady(events[..n], id)
    decreases |events|
  {
    if n < |events| {
      var shorter := events[..|events| - 1];
      assert forall i :: i in FirstSeen(shorter) ==> i in FirstSeen(events);
      assert Steady(shorter, id) by {
        hide FirstSeen;
      }
      SteadyBefore(shorter, id, n);
      assert shorter[..n] == events[..n];
    } else {
      assert events[..n] == events;
    }
  }

  lemma {:induction false} SteadyLedger(events: seq<Event>, id: int -> string)
    requires Steady(events, id)
    ensures var s := TrackAll(events).0; forall i :: i in s.entries ==> i in FirstSeen(events) && s.entries[i].itemID == id(i)
  {
    if events != [] {
      var n := |events| - 1;
      SteadyBefore(events, id, n);
      SteadyLedger(events[..n], id);
      var e := events[n];
      assert AppendValue("", id(e.index)) == id(e.index) == AppendValue(id(e.index), id(e.index));
      LedgerGathers(events);
    }
  }

  /** A stream that always names its outputs the same way, or never, meets the condition. */
  lemma SteadyStreamsAgree(events: seq<Event>, id: int -> string)
    requires Steady(events, id)
    ensures AllAgree(events)
  {
    forall n | 0 <= n < |events|
      ensures Agrees(TrackAll(events[..n]).0, events[n])
    {
      SteadyBefore(events, id, n + 1);
      var s, e := TrackAll(events[..n]).0, events[n];
      assert events[..n + 1][..n] == events[..n];
      SteadyStep(events[..n + 1], id);
    }
  }

  lemma SteadyStep(events: seq<Event>, id: int -> string)
    requires events != [] && Steady(events, id)
    ensures Agrees(TrackAll(events[..|events| - 1]).0, events[|events| - 1])
  {
    var n := |events| - 1;
    var s, e := TrackAll(events[..n]).0, events[n];
    SteadyBefore(events, id, n);
    SteadyLedger(events[..n], id);
    hide TrackAll, IndexKey;
    if Touches(e) {
      assert e.index in FirstSeen(events);
      forall j | j in s.entries && j != e.index
        ensures KeyAt(s, j) != KeyOf(e.index, id(e.index))
      {
        assert j in FirstSeen(events);
        if id(j) == "" && id(e.index) == "" && IndexKey(j) == IndexKey(e.index) {
          IndexKeysDiffer(j, e.index);
        }
      }
    }
  }

  // ----- late ids: exactly when an output splits in two

  /** The last item id that an output's events have carried. */
  function LastId(events: seq<Event>, index: int): string {
    if events == [] then "" else
    var e := events[|events| - 1];
    if Touches(e) && e.index == index && Carried(e) != "" then Carried(e) else LastId(events[..|events| - 1], index)
  }

  /** The key that the last event means for its output. */
  function KeyUsed(events: seq<Event>): string
    requires events != []
  {
    var e := events[|events| - 1];
    KeyOf(e.index, if Carried(e) == "" then LastId(events[..|events| - 1], e.index) else Carried(e))
  }

  /** The keys that an output's own events have used, or those of all other outputs. */
  function UsedBy(events: seq<Event>, index: int, own: bool): set<string> {
    if events == [] then {} else
    var e := events[|events| - 1];
    UsedBy(events[..|events| - 1], index, own) + if Touches(e) && (e.index == index) == own then {KeyUsed(events)} else {}
  }

  /** Ids may come late, but otherwise they only grow by extension, agree with the item's
      own id, and no output uses a key that another has used. */
  ghost predicate IdsAgree(events: seq<Event>) {
    events == [] || (
      var e, before := events[|events| - 1], events[..|events| - 1];
      && IdsAgree(before)
      && (Touches(e) ==>
        && (e.OutputItem? ==> e.item.id <= Carried(e))
        && (Carried(e) != "" ==> LastId(before, e.index) <= Carried(e))
        && KeyUsed(events) !in UsedBy(before, e.index, false)))
  }

  /** The last event is the first to carry an id for an output seen before, and that id is
      not the key that the output already has. */
  predicate SplitsNow(events: seq<Event>) {
    events != [] &&
    var e, before := events[|events| - 1], events[..|events| - 1];
    && Touches(e) && e.index in FirstSeen(before) && LastId(before, e.index) == ""
    && Carried(e) != "" && Carried(e) != IndexKey(e.index)
  }

  ghost predicate Splits(events: seq<Event>) { exists n :: 0 < n <= |events| && SplitsNow(events[..n]) }

  lemma SplitsByLast(events: seq<Event>)
    requires events != []
    ensures Splits(events) <==> Splits(events[..|events| - 1]) || SplitsNow(events)
  {
    hide SplitsNow;
    var before := events[..|events| - 1];
    assert events[..|events|] == events;
    if n :| 0 < n <= |before| && SplitsNow(before[..n]) {
      assert before[..n] == events[..n];
    }
    if n :| 0 < n <= |events| && SplitsNow(events[..n]) {
      if n < |events| {
        assert before[..n] == events[..n];
      }
    }
  }

  /** One late id, for any table: the call stays under the index key and a second one
      appears under the id. */
  lemma LateIdSplits(t: Table, s: Ledger, e: Event)
    requires Matches(t, s) && Touches(e) && e.index in s.entries && s.entries[e.index].itemID == ""
    requires Carried(e) != "" && Carried(e) !in t.calls && Carried(e) != IndexKey(e.index)
    ensures Apply(t, e).0.order == t.order + [Carried(e)] && IndexKey(e.index) in t.order
  {
    KnownIsOwn(t, s, e.index);
    ApplyShape(t, e);
    EnsuredShape(t, e.index, Carried(e));
    hide Apply, Ensured, KnownKey;
    assert KeyAt(s, e.index) == IndexKey(e.index);
    MatchedIsWellKept(t, s);
    MatchedCall(t, s, e.index);
  }

  lemma {:induction false} ReplacingKeepsLength(order: seq<string>, was: string, key: string)
    ensures |ReplaceFirst(order, was, key)| == |order|
  {
    if order != [] {
      ReplacingKeepsLength(order[1..], was, key);
    }
  }

  lemma EnsuredShape(t: Table, index: int, id: string)
    ensures var t1, key := Ensured(t, index, id), ChosenKey(t, index, id);
      && t1.calls.Keys <= t.calls.Keys + {key}
      && |t1.order| >= |t.order|
      && (KnownKey(t, index) == "" && key !in t.calls ==> t1.order == t.order + [key])
      && forall i :: KnownKey(t1, i) == if i == index && id != "" then id else KnownKey(t, i)
  {
    hide IndexKey, ReplaceFirst;
    ReplacingKeepsLength(t.order, KnownKey(t, index), ChosenKey(t, index, id));
  }

  lemma ApplyShape(t: Table, e: Event)
    ensures var t1 := Apply(t, e).0;
      if !Touches(e) then t1 == t else
      var t2 := Ensured(t, e.index, Carried(e)); t1.order == t2.order && t1.calls.Keys == t2.calls.Keys && t1.indexKeys == t2.indexKeys
  {
    hide Ensured, ChosenKey;
  }

  lemma UpdatedId(entry: Entry, e: Event)
    requires Touches(e) && (Carried(e) != "" ==> entry.itemID <= Carried(e)) && (e.OutputItem? ==> e.item.id <= Carried(e))
    ensures Updated(entry, e).itemID == if Carried(e) == "" then entry.itemID else Carried(e)
  {
    var id := AppendValue(entry.itemID, Carried(e));
    assert id == if Carried(e) == "" then entry.itemID else Carried(e);
    if e.OutputItem? {
      assert Carried(e) == "" ==> e.item.id == "";
      assert AppendValue(id, e.item.id) == id;
    }
  }

  lemma {:induction false} LastIdIsEntry(events: seq<Event>)
    requires IdsAgree(events)
    ensures forall i :: EntryAt(TrackAll(events).0, i).itemID == LastId(events, i)
  {
    if events != [] {
      var before, e := events[..|events| - 1], events[|events| - 1];
      LastIdIsEntry(before);
      if Touches(e) {
        hide Updated, KeyUsed, UsedBy;
        UpdatedId(EntryAt(TrackAll(before).0, e.index), e);
      }
    }
  }

  /** An output not seen yet has carried no id and used no key. */
  lemma {:induction false} UnseenIsUnused(events: seq<Event>, index: int)
    requires index !in FirstSeen(events)
    ensures LastId(events, index) == "" && UsedBy(events, index, true) == {}
  {
    hide KeyUsed;
    if events != [] {
      UnseenIsUnused(events[..|events| - 1], index);
    }
  }

  /** An output that has carried no id has used its index key only. */
  lemma {:induction false} UnnamedUsesIndexKey(events: seq<Event>, index: int)
    requires LastId(events, index) == ""
    ensures UsedBy(events, index, true) <= {IndexKey(index)}
  {
    hide IndexKey;
    if events != [] {
      UnnamedUsesIndexKey(events[..|events| - 1], index);
    }
  }

  /** A seen output's present key is one its own events have used. */
  lemma {:induction false} PresentKeyWasUsed(events: seq<Event>, j: int, index: int)
    requires j in FirstSeen(events) && j != index
    ensures KeyOf(j, LastId(events, j)) in UsedBy(events, index, false)
  {
    hide KeyOf;
    var before, e := events[..|events| - 1], events[|events| - 1];
    if !(Touches(e) && e.index == j) {
      PresentKeyWasUsed(before, j, index);
    }
  }

  /** What the table has, whether or not outputs have split. */
  ghost predicate Bounded(t: Table, events: seq<Event>) {
    && (forall i :: KnownKey(t, i) == LastId(events, i))
    && (forall key, i :: key in t.calls ==> key in UsedBy(events, i, true) || key in UsedBy(events, i, false))
    && |t.order| >= |FirstSeen(events)| + if Splits(events) then 1 else 0
  }

  lemma {:induction false} RunIsBounded(events: seq<Event>)
    requires IdsAgree(events)
    ensures Bounded(Run(events).0, events)
  {
    if events == [] {
    } else {
      hide Bounded, Apply;
      RunIsBounded(events[..|events| - 1]);
      StepIsBounded(Run(events[..|events| - 1]).0, events);
    }
  }

  lemma StepIsBounded(t: Table, events: seq<Event>)
    requires events != [] && IdsAgree(events) && Bounded(t, events[..|events| - 1])
    ensures Bounded(Apply(t, events[|events| - 1]).0, events)
  {
    hide Bounded, Apply, Ensured, Splits, SplitsNow, IdsAgree;
    SplitsByLast(events);
    ApplyShape(t, events[|events| - 1]);
    if Touches(events[|events| - 1]) {
      TouchIsBounded(t, Apply(t, events[|events| - 1]).0, events);
    } else {
      SkipIsBounded(t, events);
    }
  }

  lemma SkipIsBounded(t: Table, events: seq<Event>)
    requires events != [] && Bounded(t, events[..|events| - 1]) && !Touches(events[|events| - 1])
    requires Splits(events) <==> Splits(events[..|events| - 1]) || SplitsNow(events)
    ensures Bounded(t, events)
  {
    hide Splits, KnownKey, KeyUsed;
    var before := events[..|events| - 1];
    assert forall i, own :: UsedBy(events, i, own) == UsedBy(before, i, own);
  }

  lemma TouchIsBounded(t: Table, t1: Table, events: seq<Event>)
    requires events != [] && IdsAgree(events) && Bounded(t, events[..|events| - 1]) && Touches(events[|events| - 1])
    requires Splits(events) <==> Splits(events[..|events| - 1]) || SplitsNow(events)
    requires var e := events[|events| - 1]; var t2 := Ensured(t, e.index, Carried(e));
      t1.order == t2.order && t1.calls.Keys == t2.calls.Keys && t1.indexKeys == t2.indexKeys
    ensures Bounded(t1, events)
  {
    hide Ensured, ChosenKey, KnownKey, KeyUsed, LastId, UsedBy, Splits, SplitsNow, FirstSeen, IdsAgree, IndexKey, Carried;
    var before, e := events[..|events| - 1], events[|events| - 1];
    EnsuredShape(t, e.index, Carried(e));
    MeansKeyUsed(t, events);
    SameKnown(t1, Ensured(t, e.index, Carried(e)));
    KeysStayUsed(t, t1, events);
    SeenByLast(events);
    if e.index !in FirstSeen(before) || SplitsNow(events) {
      FreshKey(t, events);
    }
  }

  lemma SameKnown(t: Table, t1: Table)
    requires t.indexKeys == t1.indexKeys
    ensures forall i :: KnownKey(t, i) == KnownKey(t1, i)
  {
  }

  lemma SeenByLast(events: seq<Event>)
    requires events != [] && Touches(events[|events| - 1])
    ensures var before, index := events[..|events| - 1], events[|events| - 1].index;
      && FirstSeen(events) == (if index in FirstSeen(before) then FirstSeen(before) else FirstSeen(before) + [index])
      && (SplitsNow(events) ==> index in FirstSeen(before))
  {
    hide LastId, IndexKey, Carried;
  }

  lemma MeansKeyUsed(t: Table, events: seq<Event>)
    requires events != [] && forall i :: KnownKey(t, i) == LastId(events[..|events| - 1], i)
    ensures var e := events[|events| - 1]; ChosenKey(t, e.index, Carried(e)) == KeyUsed(events)
  {
    hide IndexKey, LastId;
  }

  lemma KeysStayUsed(t: Table, t1: Table, events: seq<Event>)
    requires events != [] && Touches(events[|events| - 1])
    requires Bounded(t, events[..|events| - 1]) && t1.calls.Keys <= t.calls.Keys + {KeyUsed(events)}
    requires var e := events[|events| - 1];
      forall i :: KnownKey(t1, i) == if i == e.index && Carried(e) != "" then Carried(e) else KnownKey(t, i)
    ensures forall i :: KnownKey(t1, i) == LastId(events, i)
    ensures forall key, i :: key in t1.calls ==> key in UsedBy(events, i, true) || key in UsedBy(events, i, false)
  {
    hide KeyUsed, KnownKey, Splits, FirstSeen;
    forall key, i | key in t1.calls
      ensures key in UsedBy(events, i, true) || key in UsedBy(events, i, false)
    {
      assert key in t.calls || key == KeyUsed(events);
    }
  }

  /** The key of a new output, or of one that splits, is not in the table yet. */
  lemma FreshKey(t: Table, events: seq<Event>)
    requires events != [] && IdsAgree(events) && Bounded(t, events[..|events| - 1]) && Touches(events[|events| - 1])
    requires events[|events| - 1].index !in FirstSeen(events[..|events| - 1]) || SplitsNow(events)
    ensures KnownKey(t, events[|events| - 1].index) == "" && KeyUsed(events) !in t.calls
  {
    hide IndexKey, KnownKey, Splits;
    var before, e := events[..|events| - 1], events[|events| - 1];
    if e.index !in FirstSeen(before) {
      UnseenIsUnused(before, e.index);
    } else {
      UnnamedUsesIndexKey(before, e.index);
      assert KeyUsed(events) == Carried(e);
    }
    hide FirstSeen, LastId, KeyUsed;
    assert KeyUsed(events) !in UsedBy(before, e.index, true) && KeyUsed(events) !in UsedBy(before, e.index, false);
  }

  lemma {:induction false} AgreeingPrefix(events: seq<Event>, n: nat)
    requires IdsAgree(events) && n <= |events|
    ensures IdsAgree(events[..n])
    decreases |events|
  {
    if n < |events| {
      var before := events[..|events| - 1];
      AgreeingPrefix(before, n);
      assert before[..n] == events[..n];
    } else {
      assert events[..n] == events;
    }
  }

  lemma UnsplitAgrees(events: seq<Event>)
    requires IdsAgree(events) && !Splits(events)
    ensures AllAgree(events)
  {
    hide IdsAgree, SplitsNow, Agrees, TrackAll;
    forall n | 0 <= n < |events|
      ensures Agrees(TrackAll(events[..n]).0, events[n])
    {
      var upTo := events[..n + 1];
      AgreeingPrefix(events, n + 1);
      assert !SplitsNow(upTo);
      assert upTo[..n] == events[..n];
      UnsplitStep(upTo);
    }
  }

  lemma UnsplitStep(events: seq<Event>)
    requires events != [] && IdsAgree(events) && !SplitsNow(events)
    ensures Agrees(TrackAll(events[..|events| - 1]).0, events[|events| - 1])
  {
    var before, e := events[..|events| - 1], events[|events| - 1];
    var s := TrackAll(before).0;
    LastIdIsEntry(before);
    LedgerGathers(before);
    hide TrackAll, IndexKey, LastId, UsedBy;
    if Touches(e) {
      forall j | j in s.entries && j != e.index
        ensures KeyAt(s, j) != KeyUsed(events)
      {
        PresentKeyWasUsed(before, j, e.index);
      }
    }
  }

  /** The table is well kept and holds one call for each output, made of its own events. */
  ghost predicate OneCallEach(t: Table, events: seq<Event>) {
    var seen := FirstSeen(events);
    && WellKept(t) && |t.order| == |seen|
    && forall k :: 0 <= k < |seen| ==>
      t.order[k] in t.calls && t.calls[t.order[k]] == CallFrom(seen[k], Gathered(Of(events, seen[k])))
  }

  /** Where ids may come late, there is one call for each output exactly when every late
      id is the index key the output already has. */
  lemma {:induction false} OneCallEachUnlessSplit(events: seq<Event>)
    requires IdsAgree(events)
    ensures OneCallEach(Run(events).0, events) <==> !Splits(events)
  {
    hide Run, FirstSeen, Gathered, Of, WellKept, Splits, AllAgree, IdsAgree, Bracketed, DoneUpTo;
    RunIsBounded(events);
    if !Splits(events) {
      UnsplitAgrees(events);
      EveryCallIsReportedOnce(events);
    }
  }

  /** Counting is enough to tell: the order is longer than the list of outputs exactly
      when an output has split. */
  lemma {:induction false} SplitsLengthenOrder(events: seq<Event>)
    requires IdsAgree(events)
    ensures Splits(events) <==> |Run(events).0.order| > |FirstSeen(events)|
  {
    hide Run, FirstSeen, Splits, OneCallEach, IdsAgree;
    RunIsBounded(events);
    OneCallEachUnlessSplit(events);
    EachIsCounted(Run(events).0, events);
  }

  lemma EachIsCounted(t: Table, events: seq<Event>)
    ensures OneCallEach(t, events) ==> |t.order| == |FirstSeen(events)|
  {
  }

  /** The input: arguments that come before the item id stay behind under the index key. */
  lemma LateIdSplitsAnOutput()
    ensures var events := [ArgumentsDelta(0, "", "x"), ArgumentsDone(0, "a", "y")];
      IdsAgree(events) && Splits(events) && Run(events).0.order == [IndexKey(0), "a"]
  {
    var events := [ArgumentsDelta(0, "", "x"), ArgumentsDone(0, "a", "y")];
    var before := [events[0]];
    assert events[..1] == before && before[..0] == [] && events[..2] == events;
    assert IndexKey(0) != "a" by {
      assert IndexKey(0)[0] == 'i';
    }
    hide IndexKey;
    assert FirstSeen(before) == [0] && LastId(before, 0) == "" && UsedBy(before, 0, false) == {};
    assert IdsAgree(before);
    assert events[..|events| - 1] == before && events[|events| - 1] == events[1];
    assert SplitsNow(events);
    assert SplitsNow(events[..2]);
    var t1 := Apply(NO_CALLS, events[0]).0;
    assert Run(before).0 == t1 && t1.order == [IndexKey(0)];
    assert Run(events).0 == Apply(t1, events[1]).0;
  }

  // ----- which events count, and what they say, on the events themselves

  /** The events without the items that are no function calls and the empty deltas. */
  function WithoutIdle(events: seq<Event>): seq<Event> {
    if events == [] then [] else
    var e := events[|events| - 1];
    WithoutIdle(events[..|events| - 1])
    + if (e.OutputItem? && !e.item.functionCall) || (e.ArgumentsDelta? && e.delta == "") then [] else [e]
  }

  /** Items other than function calls and empty deltas change nothing, wherever they are. */
  lemma {:induction false} IdleEventsAreIgnored(events: seq<Event>)
    ensures Run(WithoutIdle(events)) == Run(events)
  {
    hide Ensured, ChosenKey;
    if events != [] {
      var before, e := events[..|events| - 1], events[|events| - 1];
      IdleEventsAreIgnored(before);
      var kept := WithoutIdle(before);
      if (e.OutputItem? && !e.item.functionCall) || (e.ArgumentsDelta? && e.delta == "") {
        assert kept + [] == kept && Apply(Run(before).0, e) == (Run(before).0, []);
        assert Run(before).1 + [] == Run(before).1;
      } else {
        assert (kept + [e])[..|kept|] == kept;
      }
    }
  }

  predicate Reports(e: Event, index: int) { e.index == index && ((e.OutputItem? && e.item.functionCall) || e.ArgumentsDone?) }

  predicate Finishes(e: Event, index: int) { e.index == index && e.ArgumentsDone? }

  predicate Adds(e: Event, index: int) { e.index == index && e.ArgumentsDelta? && e.delta != "" }

  /** The outputs seen are those of a function-call item, a non-empty delta or a done event. */
  lemma {:induction false} SeenExactly(events: seq<Event>, index: int)
    ensures index in FirstSeen(events) <==> exists k :: 0 <= k < |events| && (Reports(events[k], index) || Adds(events[k], index))
  {
    if events != [] {
      var n := |events| - 1;
      SeenExactly(events[..n], index);
      assert forall k :: 0 <= k < n ==> events[..n][k] == events[k];
      if index in FirstSeen(events[..n]) {
        var k :| 0 <= k < n && (Reports(events[..n][k], index) || Adds(events[..n][k], index));
        assert Reports(events[k], index) || Adds(events[k], index);
      }
      assert Touches(events[n]) && events[n].index == index <==> Reports(events[n], index) || Adds(events[n], index);
    }
  }

  /** Outputs are listed once, in the order in which they are first seen. */
  lemma {:induction false} SeenInOrder(events: seq<Event>, n: nat)
    requires n <= |events|
    ensures FirstSeen(events[..n]) <= FirstSeen(events) && NoDuplicates(FirstSeen(events))
  {
    if n == |events| {
      assert events[..n] == events;
      if events != [] {
        SeenInOrder(events[..n - 1], 0);
      }
    } else {
      SeenInOrder(events[..|events| - 1], n);
      assert events[..|events| - 1][..n] == events[..n];
    }
  }

  /** The call ids, or the names, of the function-call items of one output. */
  function CallIDs(events: seq<Event>, index: int): seq<string> {
    if events == [] then [] else
    var e := events[|events| - 1];
    CallIDs(events[..|events| - 1], index) + if e.OutputItem? && e.item.functionCall && e.index == index then [e.item.callID] else []
  }

  function Names(events: seq<Event>, index: int): seq<string> {
    if events == [] then [] else
    var e := events[|events| - 1];
    Names(events[..|events| - 1], index) + if e.OutputItem? && e.item.functionCall && e.index == index then [e.item.name] else []
  }

  /** The argument deltas of one output, joined. */
  function Deltas(events: seq<Event>, index: int): string {
    if events == [] then "" else
    var e := events[|events| - 1];
    Deltas(events[..|events| - 1], index) + if e.ArgumentsDelta? && e.index == index then e.delta else ""
  }

  /** The event gives the whole argument text of an output. */
  predicate Sets(e: Event, index: int) {
    e.index == index && ((e.OutputItem? && e.item.functionCall && e.item.arguments != "") || e.ArgumentsDone?)
  }

  function WholeText(e: Event): string
    requires !e.ArgumentsDelta?
  {
    if e.OutputItem? then e.item.arguments else e.arguments
  }

  lemma FoldGrows(values: seq<string>, value: string)
    ensures FoldValue("", values + [value]) == AppendValue(FoldValue("", values), value)
  {
    assert (values + [value])[..|values|] == values;
  }

  /** A call's id and name are what the pieces in its items fold to. */
  lemma {:induction false} CallIsNamedByItems(events: seq<Event>, index: int)
    ensures Gathered(Of(events, index)).callID == FoldValue("", CallIDs(events, index))
    ensures Gathered(Of(events, index)).name == FoldValue("", Names(events, index))
  {
    hide Gathered, Of, AppendValue;
    if events == [] {
      NothingGathered(index);
    } else {
      var before, e := events[..|events| - 1], events[|events| - 1];
      CallIsNamedByItems(before, index);
      OfGrows(events, index);
      if e.OutputItem? && e.item.functionCall && e.index == index {
        FoldGrows(CallIDs(before, index), e.item.callID);
        FoldGrows(Names(before, index), e.item.name);
      } else {
        assert CallIDs(before, index) + [] == CallIDs(before, index) && Names(before, index) + [] == Names(before, index);
      }
    }
  }

  /** A call's arguments are its deltas joined, as long as no event gives the whole text. */
  lemma {:induction false} ArgumentsAreDeltas(events: seq<Event>, index: int)
    requires forall k :: 0 <= k < |events| ==> !Sets(events[k], index)
    ensures Gathered(Of(events, index)).arguments == Deltas(events, index)
  {
    hide Gathered, Of, AppendValue;
    if events == [] {
      NothingGathered(index);
    } else {
      var n := |events| - 1;
      assert forall k :: 0 <= k < n ==> events[..n][k] == events[k];
      ArgumentsAreDeltas(events[..n], index);
      OfGrows(events, index);
      assert !Sets(events[n], index);
      assert Deltas(events[..n], index) + "" == Deltas(events[..n], index);
    }
  }

  lemma NoDeltas(index: int)
    ensures Deltas([], index) == ""
  {
  }

  lemma SettingReplaces(entry: Entry, e: Event, index: int)
    requires Sets(e, index)
    ensures !e.ArgumentsDelta? && Touches(e) && Updated(entry, e).arguments == WholeText(e)
  {
    hide AppendValue;
  }

  /** Otherwise they are the last whole text given, and the deltas after it. */
  lemma {:induction false} ArgumentsAreLastText(events: seq<Event>, index: int, k: nat)
    requires k < |events| && Sets(events[k], index) && forall j :: k < j < |events| ==> !Sets(events[j], index)
    ensures Gathered(Of(events, index)).arguments == WholeText(events[k]) + Deltas(events[k + 1..], index)
    decreases |events|
  {
    hide Gathered, Of, Updated, Touches, Deltas, DeltaAt;
    var n := |events| - 1;
    OfGrows(events, index);
    if k == n {
      SettingReplaces(Gathered(Of(events[..n], index)), events[n], index);
      NoDeltas(index);
      assert events[k + 1..] == [];
      assert WholeText(events[k]) + "" == WholeText(events[k]);
    } else {
      var before := events[..n];
      assert before[k] == events[k] && forall j :: k < j < n ==> before[j] == events[j];
      ArgumentsAreLastText(before, index, k);
      assert !Sets(events[n], index);
      DeltasGrow(events, k, index);
      UnsetArguments(Gathered(Of(before, index)), events[n], index);
      var text, had, more := WholeText(events[k]), Deltas(before[k + 1..], index), DeltaAt(events[n], index);
      assert text + had + more == text + (had + more);
    }
  }

  function DeltaAt(e: Event, index: int): string { if e.ArgumentsDelta? && e.index == index then e.delta else "" }

  lemma DeltasGrow(events: seq<Event>, k: nat, index: int)
    requires k < |events| - 1
    ensures var n := |events| - 1; Deltas(events[k + 1..], index) == Deltas(events[..n][k + 1..], index) + DeltaAt(events[n], index)
  {
    var n, after := |events| - 1, events[k + 1..];
    assert after[..|after| - 1] == events[..n][k + 1..] && after[|after| - 1] == events[n];
  }

  /** An event that gives no whole text adds its delta, if it has one. */
  lemma UnsetArguments(entry: Entry, e: Event, index: int)
    requires !Sets(e, index)
    ensures var after := if Touches(e) && e.index == index then Updated(entry, e) else entry;
      after.arguments == entry.arguments + DeltaAt(e, index)
  {
    hide AppendValue;
    assert entry.arguments + "" == entry.arguments;
  }

  lemma {:induction false} LedgerFlags(events: seq<Event>, index: int)
    ensures index in TrackAll(events).0.started <==> exists k :: 0 <= k < |events| && Reports(events[k], index)
    ensures index in TrackAll(events).0.done <==> exists k :: 0 <= k < |events| && Finishes(events[k], index)
  {
    if events != [] {
      hide Updated;
      var n := |events| - 1;
      LedgerFlags(events[..n], index);
      assert forall k :: 0 <= k < n ==> events[..n][k] == events[k];
      assert (exists k :: 0 <= k < |events| && Reports(events[k], index))
        <==> (exists k :: 0 <= k < n && Reports(events[..n][k], index)) || Reports(events[n], index);
      assert (exists k :: 0 <= k < |events| && Finishes(events[k], index))
        <==> (exists k :: 0 <= k < n && Finishes(events[..n][k], index)) || Finishes(events[n], index);
    }
  }

  /** Before completion: an output's start event has been emitted exactly when a
      function-call item or a done event for it has come, and its done event exactly when
      a done event has. */
  lemma {:induction false} ReportedAsTheyCome(events: seq<Event>, index: int)
    requires AllAgree(events)
    ensures var sent := Run(events).1;
      && Starts(sent, |sent|, index) == (if exists k :: 0 <= k < |events| && Reports(events[k], index) then 1 else 0)
      && Dones(sent, |sent|, index) == (if exists k :: 0 <= k < |events| && Finishes(events[k], index) then 1 else 0)
  {
    hide AllAgree, Run, TrackAll, Matches, Reports, Finishes;
    RunMatches(events);
    TrackBrackets(events);
    LedgerFlags(events, index);
  }

  /** A boundary event of the output, under the id and name that the events give it. */
  ghost predicate Announces(e: StreamEvent, events: seq<Event>, index: int) {
    && IsBoundary(e) && e.index == index
    && e.id == FoldValue("", CallIDs(events, index)) && e.name == FoldValue("", Names(events, index))
  }

  lemma TrackAnnounces(events: seq<Event>, k: nat)
    requires events != []
    requires var before := events[..|events| - 1]; k < |Track(TrackAll(before).0, events[|events| - 1]).1|
    ensures var before, e := events[..|events| - 1], events[|events| - 1];
      Announces(Track(TrackAll(before).0, e).1[k], events, e.index)
  {
    hide Updated, Gathered, Of, CallIDs, Names;
    var before, e := events[..|events| - 1], events[|events| - 1];
    LedgerGathers(events);
    CallIsNamedByItems(events, e.index);
    var s1 := SetEntry(TrackAll(before).0, e.index, Updated(EntryAt(TrackAll(before).0, e.index), e));
    assert EntryAt(s1, e.index) == EntryAt(TrackAll(events).0, e.index);
  }

  /** What an event makes the accumulator emit is about the event's own output, under the
      id and name known by then. */
  lemma {:induction false} EmittedUnderOwnName(events: seq<Event>, k: nat)
    requires events != [] && AllAgree(events)
    requires var before := events[..|events| - 1]; k < |Apply(Run(before).0, events[|events| - 1]).1|
    ensures var before, e := events[..|events| - 1], events[|events| - 1];
      Announces(Apply(Run(before).0, e).1[k], events, e.index)
  {
    hide Matches, Agrees, Apply, Track, Announces, Run, TrackAll;
    var n := |events| - 1;
    AgreeBefore(events, n);
    RunMatches(events[..n]);
    ApplyMatches(Run(events[..n]).0, TrackAll(events[..n]).0, events[n]);
    TrackAnnounces(events, k);
  }

  ghost predicate AnnouncesEntry(e: StreamEvent, s: Ledger, index: int) {
    IsBoundary(e) && e.index == index && e.id == EntryAt(s, index).callID && e.name == EntryAt(s, index).name
  }

  lemma BothAnnounce(s: Ledger, s1: Ledger, index: int, k: nat)
    requires s1.entries == s.entries && k < |BeginAndEnd(s1, index).1|
    ensures AnnouncesEntry(BeginAndEnd(s1, index).1[k], s, index)
  {
  }

  lemma {:induction false} EndUpToAnnounces(s: Ledger, n: nat, k: nat)
    requires n <= |s.order| && k < |EndUpTo(s, n).1|
    ensures var e := EndUpTo(s, n).1[k]; IsBoundary(e) && e.index in s.order && AnnouncesEntry(e, s, e.index)
  {
    hide BeginAndEnd, AnnouncesEntry;
    var (s1, e1) := EndUpTo(s, n - 1);
    EndUpToKeeps(s, n - 1);
    if k < |e1| {
      EndUpToAnnounces(s, n - 1, k);
    } else {
      BothAnnounce(s, s1, s.order[n - 1], k - |e1|);
      IsOwn(EndUpTo(s, n).1[k], s, s.order[n - 1]);
    }
  }

  lemma IsOwn(e: StreamEvent, s: Ledger, index: int)
    requires AnnouncesEntry(e, s, index)
    ensures IsBoundary(e) && e.index == index
  {
  }

  lemma {:induction false} EndUpToKeeps(s: Ledger, n: nat)
    requires n <= |s.order|
    ensures EndUpTo(s, n).0.entries == s.entries
  {
    if n > 0 {
      EndUpToKeeps(s, n - 1);
    }
  }

  /** What completion emits is about outputs seen, under their final ids and names. */
  lemma {:induction false} CompletedUnderFinalName(events: seq<Event>, k: nat)
    requires AllAgree(events)
    requires var t := Run(events).0; k < |DoneUpTo(t, |t.order|).1|
    ensures var t := Run(events).0; var e := DoneUpTo(t, |t.order|).1[k];
      IsBoundary(e) && e.index in FirstSeen(events) && Announces(e, events, e.index)
  {
    hide AllAgree, Run, TrackAll, Matches, DoneUpTo, EndUpTo, Gathered, Of, CallIDs, Names, FirstSeen;
    var t, s := Run(events).0, TrackAll(events).0;
    RunMatches(events);
    SameLength(t, s);
    DoneUpToMatches(t, s, |t.order|);
    EndUpToAnnounces(s, |s.order|, k);
    LedgerGathers(events);
    CallIsNamedByItems(events, DoneUpTo(t, |t.order|).1[k].index);
  }

  /** An item that comes under no id is filed under the item's own. */
  lemma ItemNamesItself(t: Table, index: int, item: Item)
    ensures Apply(t, OutputItem(index, "", item)) == Apply(t, OutputItem(index, item.id, item))
    ensures item.functionCall && item.id != "" ==> item.id in Apply(t, OutputItem(index, "", item)).0.calls
  {
    hide Ensured, AppendValue;
    assert item.id != "" ==> ChosenKey(t, index, item.id) == item.id;
  }
}
