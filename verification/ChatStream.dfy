/** The chat-completions stream decoder: tool calls arrive in fragments interleaved by
    index and are reassembled, with their boundary events, at the done marker. */
module ChatStream {
  import opened Prelude
  import opened Core
  import opened Boundaries
  import opened GrowingValue
  import opened ProviderStream

  // ----- the accumulator

  datatype Fragment = Fragment(index: int, id: string, name: string, arguments: string)

  datatype Call = Call(id: string, name: string, arguments: string)

  datatype Table = Table(calls: map<int, Call>, order: seq<int>, started: set<int>, done: set<int>)

  const NO_CALLS := Table(map[], [], {}, {})

  ghost predicate Sound(t: Table) { forall k :: 0 <= k < |t.order| ==> t.order[k] in t.calls }

  function Ensured(t: Table, index: int): Table {
    if index in t.calls then t else t.(calls := t.calls[index := Call("", "", "")], order := t.order + [index])
  }

  function Grown(c: Call, f: Fragment): Call {
    Call(AppendValue(c.id, f.id), AppendValue(c.name, f.name), c.arguments + f.arguments)
  }

  function AddOne(t: Table, f: Fragment): (Table, seq<StreamEvent>) {
    var t1 := Ensured(t, f.index);
    var call := Grown(t1.calls[f.index], f);
    var t2 := t1.(calls := t1.calls[f.index := call], started := t1.started + {f.index});
    (t2, if f.index in t1.started then [] else [ToolCallStart(f.index, call.id, call.name)])
  }

  function AddAll(t: Table, fs: seq<Fragment>): (Table, seq<StreamEvent>) {
    if fs == [] then (t, []) else
    var (t1, e1) := AddAll(t, fs[..|fs| - 1]);
    var (t2, e2) := AddOne(t1, fs[|fs| - 1]);
    (t2, e1 + e2)
  }

  /** The done set and the done events after looking at the first n calls in order. */
  function DoneUpTo(t: Table, n: nat): (set<int>, seq<StreamEvent>)
    requires n <= |t.order| && Sound(t)
  {
    if n == 0 then (t.done, []) else
    var (done, events) := DoneUpTo(t, n - 1);
    var i := t.order[n - 1];
    if i in done then (done, events)
    else (done + {i}, events + [ToolCallDone(i, t.calls[i].id, t.calls[i].name)])
  }

  function DoneAll(t: Table): (Table, seq<StreamEvent>)
    requires Sound(t)
  {
    var (done, events) := DoneUpTo(t, |t.order|);
    (t.(done := done), events)
  }

  function Renamed(t: Table, e: StreamEvent): StreamEvent {
    match e
    case ToolCallStart(i, _, _) => if i in t.calls then ToolCallStart(i, t.calls[i].id, t.calls[i].name) else e
    case ToolCallDone(i, _, _) => if i in t.calls then ToolCallDone(i, t.calls[i].id, t.calls[i].name) else e
    case _ => e
  }

  function RenamedAll(t: Table, events: seq<StreamEvent>): seq<StreamEvent> {
    seq(|events|, k requires 0 <= k < |events| => Renamed(t, events[k]))
  }

  /** JSON text to an object; None for empty, malformed and non-object text. */
  type Parse = string -> Option<map<string, Json>>

  function FinalCalls(t: Table, parse: Parse, n: nat): Option<seq<ToolCall>>
    requires n <= |t.order| && Sound(t)
  {
    if n == 0 then Some([]) else
    var call := t.calls[t.order[n - 1]];
    match (FinalCalls(t, parse, n - 1), parse(call.arguments))
    case (Some(calls), Some(arguments)) => Some(calls + [ToolCall(call.id, call.name, arguments)])
    case _ => None
  }

  class ToolCalls {
    var calls: map<int, Call>
    var order: seq<int>
    var started: set<int>
    var done: set<int>

    constructor ()
      ensures State() == NO_CALLS
    {
      calls, order, started, done := map[], [], {}, {};
    }

    function State(): Table
      reads this
    {
      Table(calls, order, started, done)
    }

    method Ensure(index: int)
      modifies this
      ensures State() == Ensured(old(State()), index)
    {
      if index !in calls {
        calls := calls[index := Call("", "", "")];
        order := order + [index];
      }
    }

    method Add(deltas: seq<Fragment>) returns (events: seq<StreamEvent>)
      modifies this
      ensures (State(), events) == AddAll(old(State()), deltas)
    {
      events := [];
      for k := 0 to |deltas|
        invariant (State(), events) == AddAll(old(State()), deltas[..k])
      {
        var delta := deltas[k];
        assert deltas[..k + 1][..k] == deltas[..k];
        ghost var before, sent := State(), events;
        Ensure(delta.index);
        var call := calls[delta.index];
        call := call.(id := AppendValue(call.id, delta.id));
        call := call.(name := AppendValue(call.name, delta.name));
        call := call.(arguments := call.arguments + delta.arguments);
        calls := calls[delta.index := call];
        if delta.index !in started {
          started := started + {delta.index};
          events := events + [ToolCallStart(delta.index, call.id, call.name)];
        }
        assert started == before.started + {delta.index};
        assert sent + [] == sent;
        assert State() == AddOne(before, delta).0;
        assert events == sent + AddOne(before, delta).1;
      }
      assert deltas[..|deltas|] == deltas;
    }

    method DoneEvents() returns (events: seq<StreamEvent>)
      requires Sound(State())
      modifies this`done
      ensures (State(), events) == DoneAll(old(State()))
    {
      events := [];
      for k := 0 to |order|
        invariant (done, events) == DoneUpTo(old(State()), k)
      {
        var index := order[k];
        if index !in done {
          done := done + {index};
          events := events + [ToolCallDone(index, calls[index].id, calls[index].name)];
        }
      }
    }

    method FinalBoundaryEvents(events: seq<StreamEvent>) returns (final: seq<StreamEvent>)
      ensures final == RenamedAll(State(), events)
    {
      final := [];
      for k := 0 to |events|
        invariant final == RenamedAll(State(), events)[..k]
      {
        final := final + [Renamed(State(), events[k])];
      }
    }

    method Calls(parse: Parse) returns (result: Option<seq<ToolCall>>)
      requires Sound(State())
      ensures result == FinalCalls(State(), parse, |order|)
    {
      var all: seq<ToolCall> := [];
      for k := 0 to |order|
        invariant FinalCalls(State(), parse, k) == Some(all)
      {
        var call := calls[order[k]];
        var arguments := parse(call.arguments);
        if arguments == None {
          FailureStays(State(), parse, k + 1, |order|);
          return None;
        }
        all := all + [ToolCall(call.id, call.name, arguments.value)];
      }
      result := Some(all);
    }
  }

  lemma {:induction false} FailureStays(t: Table, parse: Parse, n: nat, m: nat)
    requires n <= m <= |t.order| && Sound(t) && FinalCalls(t, parse, n) == None
    ensures FinalCalls(t, parse, m) == None
    decreases m
  {
    if n < m {
      FailureStays(t, parse, n, m - 1);
    }
  }

  // ----- the decoder

  datatype Choice = Choice(calls: seq<Fragment>, finish: string, content: string)

  /** The data of one server-sent event, decoded. */
  datatype Payload = Blank | DoneMarker | Undecodable | ProviderError | Chunk(choices: seq<Choice>)

  datatype Decoder = Decoder(content: string, table: Table, boundary: seq<StreamEvent>, sent: seq<StreamEvent>)

  const START := Decoder("", NO_CALLS, [], [])

  function ReadChoice(d: Decoder, c: Choice): (r: Decoder)
    requires Sound(d.table)
  {
    AddAllIsSound(d.table, c.calls);
    var (t1, e1) := AddAll(d.table, c.calls);
    var (t2, e2) := if c.finish != "" then DoneAll(t1) else (t1, []);
    Decoder(d.content + c.content, t2, d.boundary + e1 + e2,
            d.sent + if c.content == "" then [] else [TextDelta(c.content)])
  }

  function ReadChoices(d: Decoder, cs: seq<Choice>): (r: Decoder)
    requires Sound(d.table)
    ensures Sound(r.table)
  {
    if cs == [] then d else
    var d1 := ReadChoices(d, cs[..|cs| - 1]);
    AddAllIsSound(d1.table, cs[|cs| - 1].calls);
    ReadChoice(d1, cs[|cs| - 1])
  }

  lemma {:induction false} AddAllIsSound(t: Table, fs: seq<Fragment>)
    requires Sound(t)
    ensures Sound(AddAll(t, fs).0)
  {
    if fs != [] {
      AddAllIsSound(t, fs[..|fs| - 1]);
    }
  }

  /** What the done marker sends after everything already sent. */
  function Finish(d: Decoder, parse: Parse): seq<StreamEvent>
    requires Sound(d.table)
  {
    var (t, e) := DoneAll(d.table);
    match FinalCalls(t, parse, |t.order|)
    case None => [DECODE_FAILED]
    case Some(calls) =>
      RenamedAll(t, d.boundary + e) + [Done(Message(Assistant, "", "", d.content, calls, map[]))]
  }

  predicate Stops(p: Payload) { p.DoneMarker? || p.Undecodable? || p.ProviderError? }

  /** Everything the decoder sends from here on, after what it has sent. */
  function Run(d: Decoder, payloads: seq<Payload>, end: End, parse: Parse): seq<StreamEvent>
    requires Sound(d.table)
    decreases |payloads|
  {
    if payloads == [] then d.sent + AtEnd(end) else
    match payloads[0]
    case Blank => Run(d, payloads[1..], end, parse)
    case DoneMarker => d.sent + Finish(d, parse)
    case Undecodable => d.sent + [DECODE_FAILED]
    case ProviderError => d.sent + [PROVIDER_FAILED]
    case Chunk(choices) => Run(ReadChoices(d, choices), payloads[1..], end, parse)
  }

  /** One chunk: tool-call fragments, finish reasons and text, choice by choice. */
  method ReadChunk(toolCalls: ToolCalls, choices: seq<Choice>, content0: string, boundary0: seq<StreamEvent>, sent0: seq<StreamEvent>)
    returns (content: string, boundary: seq<StreamEvent>, sent: seq<StreamEvent>)
    requires Sound(toolCalls.State())
    modifies toolCalls
    ensures Sound(toolCalls.State())
    ensures Decoder(content, toolCalls.State(), boundary, sent)
      == ReadChoices(old(Decoder(content0, toolCalls.State(), boundary0, sent0)), choices)
  {
    content, boundary, sent := content0, boundary0, sent0;
    ghost var before := Decoder(content, toolCalls.State(), boundary, sent);
    for j := 0 to |choices|
      invariant Sound(toolCalls.State())
      invariant Decoder(content, toolCalls.State(), boundary, sent) == ReadChoices(before, choices[..j])
    {
      hide AddAll, DoneAll, ReadChoices;
      var choice := choices[j];
      ReadByLast(before, choices, j);
      AddAllIsSound(toolCalls.State(), choice.calls);
      var events := toolCalls.Add(choice.calls);
      DoneAllKeepsOrder(toolCalls.State());
      boundary := boundary + events;
      if choice.finish != "" {
        events := toolCalls.DoneEvents();
        boundary := boundary + events;
      }
      content := content + choice.content;
      if choice.content != "" {
        sent := sent + [TextDelta(choice.content)];
      }
    }
    assert choices[..|choices|] == choices;
  }

  lemma ReadByLast(d: Decoder, cs: seq<Choice>, j: nat)
    requires Sound(d.table) && j < |cs|
    ensures ReadChoices(d, cs[..j + 1]) == ReadChoice(ReadChoices(d, cs[..j]), cs[j])
  {
    hide ReadChoice;
    assert cs[..j + 1][..j] == cs[..j];
  }

  method Stream(payloads: seq<Payload>, end: End, parse: Parse) returns (sent: seq<StreamEvent>)
    ensures sent == Run(START, payloads, end, parse)
  {
    hide AddAll, DoneAll, RenamedAll, FinalCalls, ReadChoices;
    var content, boundary := "", [];
    sent := [];
    var toolCalls := new ToolCalls();
    for k := 0 to |payloads|
      invariant Sound(toolCalls.State())
      invariant fresh(toolCalls)
      invariant Run(Decoder(content, toolCalls.State(), boundary, sent), payloads[k..], end, parse) == Run(START, payloads, end, parse)
    {
      ghost var before := Decoder(content, toolCalls.State(), boundary, sent);
      assert payloads[k..][1..] == payloads[k + 1..];
      match payloads[k]
      case Blank =>
      case DoneMarker =>
        var done := toolCalls.DoneEvents();
        boundary := boundary + done;
        var calls := toolCalls.Calls(parse);
        match calls {
          case None => return sent + [DECODE_FAILED];
          case Some(all) =>
            boundary := toolCalls.FinalBoundaryEvents(boundary);
            var message := Message(Assistant, "", "", content, all, map[]);
            assert before.sent + (boundary + [Done(message)]) == before.sent + boundary + [Done(message)];
            return sent + boundary + [Done(message)];
        }
      case Undecodable => return sent + [DECODE_FAILED];
      case ProviderError => return sent + [PROVIDER_FAILED];
      case Chunk(choices) =>
        content, boundary, sent := ReadChunk(toolCalls, choices, content, boundary, sent);
    }
    match end
    case Clean => sent := sent + [DECODE_FAILED];
    case ReadFailed => sent := sent + [TRANSPORT_FAILED];
    case ContextEnded =>
  }

  // ----- what the fragments say, index by index

  function Of(fs: seq<Fragment>, index: int): seq<Fragment> {
    if fs == [] then [] else
    var last := fs[|fs| - 1];
    Of(fs[..|fs| - 1], index) + if last.index == index then [last] else []
  }

  function FirstSeen(fs: seq<Fragment>): seq<int> {
    if fs == [] then [] else
    var seen, i := FirstSeen(fs[..|fs| - 1]), fs[|fs| - 1].index;
    if i in seen then seen else seen + [i]
  }

  function Ids(parts: seq<Fragment>): seq<string> { seq(|parts|, k requires 0 <= k < |parts| => parts[k].id) }

  function Names(parts: seq<Fragment>): seq<string> { seq(|parts|, k requires 0 <= k < |parts| => parts[k].name) }

  function Text(parts: seq<Fragment>): string {
    if parts == [] then "" else Text(parts[..|parts| - 1]) + parts[|parts| - 1].arguments
  }

  /** One call, from its own fragments alone. */
  function Gathered(parts: seq<Fragment>): Call {
    Call(FoldValue("", Ids(parts)), FoldValue("", Names(parts)), Text(parts))
  }

  function CallOf(fs: seq<Fragment>, index: int): Call { Gathered(Of(fs, index)) }

  lemma GatheredGrows(parts: seq<Fragment>, f: Fragment)
    ensures Gathered(parts + [f]) == Grown(Gathered(parts), f)
  {
    assert (parts + [f])[..|parts|] == parts;
    assert Ids(parts + [f])[..|parts|] == Ids(parts);
    assert Names(parts + [f])[..|parts|] == Names(parts);
  }

  lemma {:induction false} FirstSeenIsExact(fs: seq<Fragment>, index: int)
    ensures index in FirstSeen(fs) <==> Of(fs, index) != []
    ensures NoDuplicates(FirstSeen(fs))
  {
    if fs != [] {
      FirstSeenIsExact(fs[..|fs| - 1], index);
    }
  }

  ghost predicate Reflects(t: Table, fs: seq<Fragment>) {
    && t.order == FirstSeen(fs)
    && (forall i :: i in t.calls <==> i in t.order)
    && (forall i :: i in t.calls ==> t.calls[i] == CallOf(fs, i))
    && t.started == t.calls.Keys
  }

  lemma AddOneReflects(t: Table, fs: seq<Fragment>, f: Fragment)
    requires Reflects(t, fs)
    ensures Reflects(AddOne(t, f).0, fs + [f])
  {
    hide CallOf, Grown;
    var all := fs + [f];
    assert all[..|fs|] == fs;
    var t1, t2 := Ensured(t, f.index), AddOne(t, f).0;
    FirstSeenIsExact(fs, f.index);
    assert t1.calls[f.index] == CallOf(fs, f.index) by {
      UnseenIsEmpty(fs, f.index);
    }
    forall i
      ensures CallOf(all, i) == if i == f.index then Grown(CallOf(fs, i), f) else CallOf(fs, i)
    {
      CallGrows(fs, f, i);
    }
  }

  lemma CallGrows(fs: seq<Fragment>, f: Fragment, index: int)
    ensures CallOf(fs + [f], index) == if index == f.index then Grown(CallOf(fs, index), f) else CallOf(fs, index)
  {
    hide Gathered, Grown;
    assert (fs + [f])[..|fs|] == fs;
    GatheredGrows(Of(fs, index), f);
    assert Of(fs, index) + [] == Of(fs, index);
  }

  lemma UnseenIsEmpty(fs: seq<Fragment>, index: int)
    ensures index !in FirstSeen(fs) ==> CallOf(fs, index) == Call("", "", "")
  {
    FirstSeenIsExact(fs, index);
    assert Ids([]) == [] && Names([]) == [];
  }

  lemma {:induction false} AddAllReflects(t: Table, fs: seq<Fragment>, more: seq<Fragment>, boundary: seq<StreamEvent>)
    requires Reflects(t, fs) && Bracketed(boundary, t.started, t.done)
    ensures var (t1, e1) := AddAll(t, more);
      Reflects(t1, fs + more) && t1.done == t.done && Bracketed(boundary + e1, t1.started, t1.done)
  {
    hide Reflects, Bracketed;
    if more == [] {
      assert fs + more == fs && boundary + [] == boundary;
    } else {
      var n := |more| - 1;
      AddAllReflects(t, fs, more[..n], boundary);
      var (t1, e1) := AddAll(t, more[..n]);
      var (t2, e2) := AddOne(t1, more[n]);
      AddOneReflects(t1, fs + more[..n], more[n]);
      assert fs + more == fs + more[..n] + [more[n]];
      AddOneBrackets(t1, more[n], boundary + e1);
      assert boundary + e1 + e2 == boundary + (e1 + e2);
    }
  }

  lemma AddOneBrackets(t: Table, f: Fragment, boundary: seq<StreamEvent>)
    requires Bracketed(boundary, t.started, t.done)
    ensures var (t1, e1) := AddOne(t, f); t1.done == t.done && Bracketed(boundary + e1, t1.started, t1.done)
  {
    var (t1, e1) := AddOne(t, f);
    if f.index in t.started {
      assert t1.started == t.started && boundary + e1 == boundary;
    } else {
      BracketGrows(boundary, e1[0], t.started, t.done);
    }
  }

  lemma {:induction false} DoneUpToBrackets(t: Table, n: nat, boundary: seq<StreamEvent>)
    requires n <= |t.order| && Sound(t) && Bracketed(boundary, t.started, t.done)
    requires forall k :: 0 <= k < |t.order| ==> t.order[k] in t.started
    ensures var (done, e) := DoneUpTo(t, n);
      && t.done <= done && Bracketed(boundary + e, t.started, done)
      && forall k :: 0 <= k < n ==> t.order[k] in done
  {
    if n == 0 {
      assert boundary + [] == boundary;
    } else {
      DoneUpToBrackets(t, n - 1, boundary);
      var (done, e) := DoneUpTo(t, n - 1);
      var i := t.order[n - 1];
      if i !in done {
        var last := ToolCallDone(i, t.calls[i].id, t.calls[i].name);
        BracketGrows(boundary + e, last, t.started, done);
        assert boundary + e + [last] == boundary + (e + [last]);
      }
    }
  }

  lemma DoneAllReflects(t: Table, fs: seq<Fragment>, boundary: seq<StreamEvent>)
    requires Reflects(t, fs) && Sound(t) && Bracketed(boundary, t.started, t.done)
    ensures var (t1, e1) := DoneAll(t);
      Reflects(t1, fs) && t1.started == t.started && t1.done == t.started && Bracketed(boundary + e1, t1.started, t1.done)
  {
    DoneUpToBrackets(t, |t.order|, boundary);
    forall i | i in t.started
      ensures i in DoneAll(t).0.done
    {
      var k :| 0 <= k < |t.order| && t.order[k] == i;
    }
  }

  // ----- the decoder's state mirrors the choices read so far

  function Fragments(cs: seq<Choice>): seq<Fragment> {
    if cs == [] then [] else Fragments(cs[..|cs| - 1]) + cs[|cs| - 1].calls
  }

  function Contents(cs: seq<Choice>): string {
    if cs == [] then "" else Contents(cs[..|cs| - 1]) + cs[|cs| - 1].content
  }

  function Deltas(cs: seq<Choice>): seq<StreamEvent> {
    if cs == [] then [] else
    var c := cs[|cs| - 1].content;
    Deltas(cs[..|cs| - 1]) + if c == "" then [] else [TextDelta(c)]
  }

  lemma {:induction false} DeltasSpellContents(cs: seq<Choice>)
    ensures DeltaText(Deltas(cs)) == Contents(cs)
    ensures forall k :: 0 <= k < |Deltas(cs)| ==> Deltas(cs)[k].Delta?
  {
    if cs != [] {
      var n := |cs| - 1;
      DeltasSpellContents(cs[..n]);
      if cs[n].content != "" {
        DeltaTextAppend(Deltas(cs[..n]), TextDelta(cs[n].content));
      } else {
        assert Deltas(cs) == Deltas(cs[..n]);
      }
    }
  }

  ghost predicate Mirrors(d: Decoder, cs: seq<Choice>) {
    && d.content == Contents(cs)
    && d.sent == Deltas(cs)
    && Sound(d.table) && Reflects(d.table, Fragments(cs))
    && Bracketed(d.boundary, d.table.started, d.table.done)
  }

  lemma {:induction false} ReadChoicesMirrors(cs: seq<Choice>)
    ensures Mirrors(ReadChoices(START, cs), cs)
  {
    if cs == [] {
    } else {
      var n := |cs| - 1;
      ReadChoicesMirrors(cs[..n]);
      ReadChoiceMirrors(ReadChoices(START, cs[..n]), cs[..n], cs[n]);
      assert cs[..n] + [cs[n]] == cs;
    }
  }

  lemma ReadChoiceMirrors(d: Decoder, cs: seq<Choice>, c: Choice)
    requires Mirrors(d, cs)
    ensures Mirrors(ReadChoice(d, c), cs + [c])
  {
    hide Reflects, Bracketed, AddAll, DoneAll;
    var all := cs + [c];
    assert all[..|cs|] == cs;
    AddAllIsSound(d.table, c.calls);
    AddAllReflects(d.table, Fragments(cs), c.calls, d.boundary);
    var (t1, e1) := AddAll(d.table, c.calls);
    if c.finish != "" {
      DoneAllReflects(t1, Fragments(all), d.boundary + e1);
    } else {
      assert d.boundary + e1 + [] == d.boundary + e1;
    }
    DoneAllKeepsOrder(t1);
  }

  lemma DoneAllKeepsOrder(t: Table)
    requires Sound(t)
    ensures Sound(DoneAll(t).0)
  {
  }

  // ----- main results

  function Choices(payloads: seq<Payload>): seq<Choice> {
    if payloads == [] then [] else
    (if payloads[0].Chunk? then payloads[0].choices else []) + Choices(payloads[1..])
  }

  lemma {:induction false} ReadChoicesConcat(d: Decoder, a: seq<Choice>, b: seq<Choice>)
    requires Sound(d.table)
    ensures ReadChoices(ReadChoices(d, a), b) == ReadChoices(d, a + b)
  {
    hide ReadChoice, Sound;
    if b == [] {
      assert a + b == a;
    } else {
      var n := |b| - 1;
      ReadChoicesConcat(d, a, b[..n]);
      assert (a + b)[..|a + b| - 1] == a + b[..n];
    }
  }

  lemma {:induction false} RunReads(cs: seq<Choice>, before: seq<Payload>, rest: seq<Payload>, end: End, parse: Parse)
    requires forall k :: 0 <= k < |before| ==> !Stops(before[k])
    ensures Run(ReadChoices(START, cs), before + rest, end, parse) == Run(ReadChoices(START, cs + Choices(before)), rest, end, parse)
    decreases |before|
  {
    hide ReadChoices, Run, Stops, Finish, Choices;
    ChoicesByFirst(before);
    if before == [] {
      assert before + rest == rest && cs + Choices(before) == cs;
    } else {
      var p, tail := before[0], before[1..];
      var read := if p.Chunk? then p.choices else [];
      assert !Stops(p);
      RunStep(cs, p, tail + rest, end, parse);
      assert before + rest == [p] + (tail + rest);
      RunReads(cs + read, tail, rest, end, parse);
      assert cs + read + Choices(tail) == cs + Choices(before);
    }
  }

  lemma ChoicesByFirst(payloads: seq<Payload>)
    ensures Choices(payloads) == if payloads == [] then [] else
      (if payloads[0].Chunk? then payloads[0].choices else []) + Choices(payloads[1..])
  {
  }

  lemma RunStep(cs: seq<Choice>, p: Payload, rest: seq<Payload>, end: End, parse: Parse)
    requires !Stops(p)
    ensures Run(ReadChoices(START, cs), [p] + rest, end, parse)
      == Run(ReadChoices(START, cs + if p.Chunk? then p.choices else []), rest, end, parse)
  {
    hide ReadChoices, Finish;
    assert ([p] + rest)[1..] == rest;
    if p.Chunk? {
      ReadChoicesConcat(START, cs, p.choices);
    } else {
      assert cs + [] == cs;
    }
  }

  ghost predicate Parsable(fs: seq<Fragment>, parse: Parse) {
    forall i :: i in FirstSeen(fs) ==> parse(CallOf(fs, i).arguments).Some?
  }

  /** The call the fragments of one index stand for. */
  function CallAt(fs: seq<Fragment>, index: int, parse: Parse): ToolCall
    requires parse(CallOf(fs, index).arguments).Some?
  {
    var g := CallOf(fs, index);
    ToolCall(g.id, g.name, parse(g.arguments).value)
  }

  predicate NamedAs(e: StreamEvent, call: Call) { IsBoundary(e) && e.id == call.id && e.name == call.name }

  /** All deltas, then every call started and done once under its final id and name,
      then one message holding all the text and all the calls in first-seen order. */
  ghost predicate Reports(sent: seq<StreamEvent>, cs: seq<Choice>, parse: Parse)
    requires Parsable(Fragments(cs), parse)
  {
    var deltas, fs := Deltas(cs), Fragments(cs);
    var seen := FirstSeen(fs);
    && |deltas| < |sent| && deltas <= sent && sent[|sent| - 1].Done?
    && var boundary, m := sent[|deltas|..|sent| - 1], sent[|sent| - 1].message;
    && Bracketed(boundary, Members(seen), Members(seen))
    && (forall k :: 0 <= k < |boundary| ==> NamedAs(boundary[k], CallOf(fs, boundary[k].index)))
    && m == Message(Assistant, "", "", Contents(cs), m.toolCalls, map[]) && m.content == DeltaText(sent)
    && NoDuplicates(seen) && |m.toolCalls| == |seen|
    && forall k :: 0 <= k < |seen| ==> m.toolCalls[k] == CallAt(fs, seen[k], parse)
  }

  lemma {:induction false} FinalCallsAre(t: Table, fs: seq<Fragment>, parse: Parse, n: nat)
    requires n <= |t.order| && Sound(t) && Reflects(t, fs)
    ensures var r := FinalCalls(t, parse, n);
      && (r.Some? <==> forall k :: 0 <= k < n ==> parse(CallOf(fs, t.order[k]).arguments).Some?)
      && (r.Some? ==> |r.value| == n && forall k :: 0 <= k < n ==> r.value[k] == CallAt(fs, t.order[k], parse))
  {
    hide CallOf, FirstSeen;
    if n > 0 {
      FinalCallsAre(t, fs, parse, n - 1);
      assert t.calls[t.order[n - 1]] == CallOf(fs, t.order[n - 1]);
    }
  }

  function Members(s: seq<int>): (r: set<int>)
    ensures forall i :: i in r <==> i in s
  {
    set i | i in s
  }

  lemma StartedAreSeen(t: Table, fs: seq<Fragment>)
    requires Reflects(t, fs)
    ensures t.started == Members(FirstSeen(fs))
  {
    forall i
      ensures i in t.started <==> i in Members(FirstSeen(fs))
    {
      assert i in t.started <==> i in t.calls;
    }
  }

  lemma FinishReports(d: Decoder, cs: seq<Choice>, parse: Parse)
    requires Mirrors(d, cs)
    ensures if Parsable(Fragments(cs), parse) then Reports(d.sent + Finish(d, parse), cs, parse)
            else Finish(d, parse) == [DECODE_FAILED]
  {
    hide Bracketed, CallOf, DoneAll, FinalCalls, FirstSeen, Of, Members;
    var fs := Fragments(cs);
    DoneAllReflects(d.table, fs, d.boundary);
    DoneAllKeepsOrder(d.table);
    var (t, e) := DoneAll(d.table);
    FinalCallsAre(t, fs, parse, |t.order|);
    var r := FinalCalls(t, parse, |t.order|);
    if r.Some? {
      var boundary, sent := RenamedAll(t, d.boundary + e), d.sent + Finish(d, parse);
      BoundaryIsFinal(t, fs, d.boundary + e);
      StartedAreSeen(t, fs);
      assert sent[|d.sent|..|sent| - 1] == boundary;
      assert NoDuplicates(FirstSeen(fs)) by {
        FirstSeenIsExact(fs, 0);
      }
      assert DeltaText(sent) == Contents(cs) by {
        DeltasSpellContents(cs);
        assert forall x :: x in Finish(d, parse) ==> !x.Delta?;
        DeltaTextSkips(d.sent, Finish(d, parse));
      }
    }
  }

  lemma BoundaryIsFinal(t: Table, fs: seq<Fragment>, events: seq<StreamEvent>)
    requires Reflects(t, fs) && Bracketed(events, t.started, t.done)
    ensures var boundary := RenamedAll(t, events);
      && Bracketed(boundary, t.started, t.done)
      && (forall x :: x in boundary ==> IsBoundary(x))
      && forall k :: 0 <= k < |boundary| ==> NamedAs(boundary[k], CallOf(fs, boundary[k].index))
  {
    hide CallOf;
    var boundary := RenamedAll(t, events);
    forall k | 0 <= k < |events|
      ensures NamedAs(boundary[k], CallOf(fs, boundary[k].index)) && boundary[k].index == events[k].index
    {
      BracketMentions(events, t.started, t.done, k);
    }
    RenamedStaysBracketed(events, boundary, t.started, t.done);
  }

  lemma SentAreDeltas(cs: seq<Choice>)
    ensures ReadChoices(START, cs).sent == Deltas(cs)
  {
    ReadChoicesMirrors(cs);
  }

  /** Whatever arrives, a stream ends with exactly one final event unless its context
      ended first, and the text of a done event is what its deltas spelled. */
  lemma {:induction false} StreamEndsOnce(cs: seq<Choice>, payloads: seq<Payload>, end: End, parse: Parse)
    ensures var sent := Run(ReadChoices(START, cs), payloads, end, parse);
      && (EndsOnce(sent) <==> end != ContextEnded || exists k :: 0 <= k < |payloads| && Stops(payloads[k]))
      && (forall k :: 0 <= k < |sent| - 1 ==> !IsTerminal(sent[k]))
      && (sent != [] && sent[|sent| - 1].Done? ==> sent[|sent| - 1].message.content == DeltaText(sent))
    decreases |payloads|
  {
    hide Bracketed, Reflects, ReadChoices, Finish, DeltaText, Contents, AtEnd, Fragments, Deltas;
    var d := ReadChoices(START, cs);
    ReadChoicesMirrors(cs);
    DeltasSpellContents(cs);
    if payloads == [] {
      EndOnce(d.sent, end);
    } else if payloads[0].Blank? {
      StreamEndsOnce(cs, payloads[1..], end, parse);
      StopsLater(payloads);
    } else if payloads[0].Chunk? {
      ReadChoicesConcat(START, cs, payloads[0].choices);
      StreamEndsOnce(cs + payloads[0].choices, payloads[1..], end, parse);
      StopsLater(payloads);
    } else {
      assert Stops(payloads[0]);
      FinishEndsOnce(d, cs, parse);
    }
  }

  lemma EndOnce(sent: seq<StreamEvent>, end: End)
    requires forall k :: 0 <= k < |sent| ==> sent[k].Delta?
    ensures EndsOnce(sent + AtEnd(end)) <==> end != ContextEnded
    ensures forall k :: 0 <= k < |sent + AtEnd(end)| - 1 ==> !IsTerminal((sent + AtEnd(end))[k])
    ensures forall e :: e in sent + AtEnd(end) ==> !e.Done?
  {
  }

  lemma StopsLater(payloads: seq<Payload>)
    requires payloads != [] && !Stops(payloads[0])
    ensures (exists k :: 0 <= k < |payloads| && Stops(payloads[k]))
      <==> exists k :: 0 <= k < |payloads[1..]| && Stops(payloads[1..][k])
  {
    if k :| 0 <= k < |payloads| && Stops(payloads[k]) {
      assert payloads[1..][k - 1] == payloads[k];
    }
  }

  lemma ReportEndsOnce(sent: seq<StreamEvent>, cs: seq<Choice>, parse: Parse)
    requires Parsable(Fragments(cs), parse) && Reports(sent, cs, parse)
    ensures EndsOnce(sent) && sent[|sent| - 1].message.content == DeltaText(sent)
  {
    hide Bracketed, CallOf, CallAt, FirstSeen, Members, DeltaText, Fragments, Parsable;
    var deltas := Deltas(cs);
    DeltasSpellContents(cs);
    forall k | 0 <= k < |sent| - 1
      ensures !IsTerminal(sent[k])
    {
      if k < |deltas| {
        assert sent[k] == deltas[k];
      } else {
        assert sent[k] == sent[|deltas|..|sent| - 1][k - |deltas|];
      }
    }
  }

  lemma FinishEndsOnce(d: Decoder, cs: seq<Choice>, parse: Parse)
    requires Mirrors(d, cs)
    ensures var sent := d.sent + Finish(d, parse);
      EndsOnce(sent) && (sent[|sent| - 1].Done? ==> sent[|sent| - 1].message.content == DeltaText(sent))
  {
    hide Finish, Reports, Parsable, Bracketed, Reflects;
    FinishReports(d, cs, parse);
    DeltasSpellContents(cs);
    if Parsable(Fragments(cs), parse) {
      ReportEndsOnce(d.sent + Finish(d, parse), cs, parse);
    }
  }

  lemma SameFragmentsSameCall(fs: seq<Fragment>, gs: seq<Fragment>, index: int)
    requires Of(fs, index) == Of(gs, index)
    ensures CallOf(fs, index) == CallOf(gs, index)
  {
    hide Of, Gathered;
  }

  /** How fragments of different calls interleave is irrelevant. */
  lemma InterleavingIsIrrelevant(fs: seq<Fragment>, gs: seq<Fragment>)
    requires FirstSeen(fs) == FirstSeen(gs) && forall i :: Of(fs, i) == Of(gs, i)
    ensures AddAll(NO_CALLS, fs).0 == AddAll(NO_CALLS, gs).0
  {
    hide AddAll, FirstSeen, Of, CallOf;
    NoCallsReflect(fs);
    NoCallsReflect(gs);
    var t, u := AddAll(NO_CALLS, fs).0, AddAll(NO_CALLS, gs).0;
    assert forall i :: i in t.calls <==> i in u.calls;
    forall i | i in t.calls
      ensures t.calls[i] == u.calls[i]
    {
      SameFragmentsSameCall(fs, gs, i);
    }
    assert t.calls == u.calls;
  }

  lemma NoCallsReflect(fs: seq<Fragment>)
    ensures Reflects(AddAll(NO_CALLS, fs).0, fs) && AddAll(NO_CALLS, fs).0.done == {}
    ensures Bracketed(AddAll(NO_CALLS, fs).1, AddAll(NO_CALLS, fs).0.started, {})
  {
    AddAllReflects(NO_CALLS, [], fs, []);
    assert [] + fs == fs && [] + AddAll(NO_CALLS, fs).1 == AddAll(NO_CALLS, fs).1;
  }

  /** An id or name that a call's fragments repeat or grow is rebuilt exactly. */
  lemma IdsReassemble(fs: seq<Fragment>, index: int, id: string, name: string)
    requires Of(fs, index) != []
    requires forall f :: f in Of(fs, index) ==> f.id <= id && f.name <= name
    ensures var t := AddAll(NO_CALLS, fs).0;
      && index in t.calls
      && (t.calls[index].id == id <==> id == "" || exists f :: f in Of(fs, index) && f.id == id)
      && (t.calls[index].name == name <==> name == "" || exists f :: f in Of(fs, index) && f.name == name)
  {
    hide AddAll, FoldValue, FirstSeen, Of;
    NoCallsReflect(fs);
    FirstSeenIsExact(fs, index);
    PartsReassemble(Of(fs, index), id, name);
  }

  lemma PartsReassemble(parts: seq<Fragment>, id: string, name: string)
    requires forall f :: f in parts ==> f.id <= id && f.name <= name
    ensures Gathered(parts).id == id <==> id == "" || exists f :: f in parts && f.id == id
    ensures Gathered(parts).name == name <==> name == "" || exists f :: f in parts && f.name == name
  {
    hide FoldValue;
    var ids, names := Ids(parts), Names(parts);
    forall k | 0 <= k < |parts|
      ensures parts[k] in parts && ids[k] <= id && names[k] <= name
    {
    }
    PrefixesRebuild(id, "", ids);
    PrefixesRebuild(name, "", names);
    assert id in ids <==> exists f :: f in parts && f.id == id;
    assert name in names <==> exists f :: f in parts && f.name == name;
  }

  /** At the done marker the caller has seen everything the fragments said, or one decode
      error when some call's arguments are not a JSON object. */
  lemma DoneReportsEverything(before: seq<Payload>, after: seq<Payload>, end: End, parse: Parse)
    requires forall k :: 0 <= k < |before| ==> !Stops(before[k])
    ensures var cs, sent := Choices(before), Run(START, before + ([DoneMarker] + after), end, parse);
      if Parsable(Fragments(cs), parse) then Reports(sent, cs, parse) else sent == Deltas(cs) + [DECODE_FAILED]
  {
    hide Reports, Finish, Parsable, Mirrors;
    var cs := Choices(before);
    assert [] + cs == cs;
    RunReads([], before, [DoneMarker] + after, end, parse);
    ReadChoicesMirrors(cs);
    FinishReports(ReadChoices(START, cs), cs, parse);
    SentAreDeltas(cs);
  }

  // ----- why a stream stopped

  function ProviderFailure(cause: string): StreamEvent { Error(Failure(OtherCategory("provider"), cause)) }

  /** An undecodable payload, an error of the provider and each way the body can end send
      their own error after the deltas, and no boundary event. */
  lemma {:induction false} StopsSayWhy(before: seq<Payload>, stop: Payload, after: seq<Payload>, end: End, parse: Parse)
    requires forall k :: 0 <= k < |before| ==> !Stops(before[k])
    ensures var deltas := Deltas(Choices(before)); var sent := Run(START, before + ([stop] + after), end, parse);
      && (stop.Undecodable? ==> sent == deltas + [ProviderFailure("decode")])
      && (stop.ProviderError? ==> sent == deltas + [ProviderFailure("provider error")])
    ensures var deltas := Deltas(Choices(before)); var sent := Run(START, before, end, parse);
      && (end == Clean ==> sent == deltas + [ProviderFailure("decode")])
      && (end == ReadFailed ==> sent == deltas + [ProviderFailure("transport")])
      && (end == ContextEnded ==> sent == deltas)
  {
    hide Finish, ReadChoices, Choices, Deltas;
    var cs := Choices(before);
    assert [] + cs == cs && before + [] == before;
    StartsEmpty();
    RunReads([], before, [stop] + after, end, parse);
    RunReads([], before, [], end, parse);
    SentAreDeltas(cs);
    assert Deltas(cs) + [] == Deltas(cs);
  }

  lemma StartsEmpty()
    ensures ReadChoices(START, []) == START
  {
  }

  /** Calls start as soon as they are seen, and a finish reason ends all those seen so far. */
  lemma {:induction false} FinishReasonEndsCalls(cs: seq<Choice>, index: int)
    ensures var boundary := ReadChoices(START, cs).boundary; var seen := index in FirstSeen(Fragments(cs));
      && Starts(boundary, |boundary|, index) == (if seen then 1 else 0)
      && (cs != [] && cs[|cs| - 1].finish != "" ==> Dones(boundary, |boundary|, index) == if seen then 1 else 0)
  {
    hide FirstSeen, CallOf, Fragments, AddAll, DoneAll, ReadChoice;
    var d := ReadChoices(START, cs);
    ReadChoicesMirrors(cs);
    assert index in d.table.started <==> index in d.table.calls;
    if cs != [] && cs[|cs| - 1].finish != "" {
      var n := |cs| - 1;
      ReadChoicesMirrors(cs[..n]);
      FinishEnds(ReadChoices(START, cs[..n]), cs[..n], cs[n]);
    }
  }

  lemma FinishEnds(d: Decoder, cs: seq<Choice>, c: Choice)
    requires Mirrors(d, cs) && c.finish != ""
    ensures ReadChoice(d, c).table.done == ReadChoice(d, c).table.started
  {
    hide Reflects, Bracketed, AddAll, DoneAll;
    AddAllIsSound(d.table, c.calls);
    AddAllReflects(d.table, Fragments(cs), c.calls, d.boundary);
    var (t1, e1) := AddAll(d.table, c.calls);
    DoneAllReflects(t1, Fragments(cs) + c.calls, d.boundary + e1);
  }
}
