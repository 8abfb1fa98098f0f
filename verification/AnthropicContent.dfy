/** What an Anthropic stream says, read off its events: the blocks that a later request
    replays, the thinking it shows, the calls it announces, and why it stopped. */
module AnthropicContent {
  import opened Prelude
  import opened Core
  import opened Boundaries
  import opened ProviderStream
  import opened AnthropicStream

  // ----- replaying the kept blocks in the next request

  datatype Replayed = NoBlocks | Unreadable | Blocks(blocks: seq<Block>)

  predicate IsBlock(item: Json) { item.Object? || item.Null? }

  function FieldsOf(item: Json): Block { if item.Object? then item.fields else map[] }

  /** anthropicMessagesRawContentBlocks: what the metadata of a message hands back. */
  function Replay(metadata: map<string, Json>): Replayed {
    if "anthropic_messages_content" !in metadata then NoBlocks else
    match metadata["anthropic_messages_content"]
    case Null => Blocks([])
    case List(items) =>
      if forall item :: item in items ==> IsBlock(item)
      then Blocks(seq(|items|, k requires 0 <= k < |items| => FieldsOf(items[k])))
      else Unreadable
    case _ => Unreadable
  }

  /** A response's message replays exactly the blocks that the response had. */
  lemma KeptBlocksReplay(metadata: map<string, Json>, raws: seq<Json>)
    requires KeepsBlocks(metadata, raws)
    ensures Replay(metadata)
      == if raws == [] then NoBlocks else Blocks(seq(|raws|, k requires 0 <= k < |raws| => FieldsOf(raws[k])))
  {
    if raws != [] {
      var items := metadata["anthropic_messages_content"].items;
      assert forall k :: 0 <= k < |items| ==> IsBlock(items[k]) && FieldsOf(items[k]) == FieldsOf(raws[k]);
      assert "anthropic_messages_content" in metadata.Keys;
    }
  }

  ghost predicate ReplaysWhole(sent: seq<StreamEvent>, pieces: seq<Piece>) {
    && sent != [] && sent[|sent| - 1].Done?
    && Replay(sent[|sent| - 1].message.metadata) == if Kept(pieces) == [] then NoBlocks else Blocks(Wholes(Kept(pieces)))
  }

  /** Thinking blocks with their signatures, and all others that have a key, come back
      whole from a streamed message, however they were cut. */
  lemma {:induction false} StreamReplaysBlocks(pieces: seq<Piece>, tail: seq<Event>, after: seq<Event>, end: End, parse: Parse)
    requires Faithful(pieces, parse) && forall k :: 0 <= k < |tail| ==> tail[k].Silent?
    ensures ReplaysWhole(Sent(pieces, tail, after, end, parse), pieces)
  {
    hide Faithful, Sent, Kept, SaidText, SaidCalls, KeepsBlocks, Replay;
    StreamKeepsBlocks(pieces, tail, after, end, parse);
    var raws, kept := Raws(Kept(pieces)), Kept(pieces);
    KeptBlocksReplay(Sent(pieces, tail, after, end, parse)[|Sent(pieces, tail, after, end, parse)| - 1].message.metadata, raws);
    if kept != [] {
      assert seq(|raws|, k requires 0 <= k < |raws| => FieldsOf(raws[k])) == Wholes(kept);
    }
  }

  // ----- thinking

  /** The thinking deltas of a stream, joined. */
  function ThinkingText(events: seq<StreamEvent>): string {
    if events == [] then "" else
    ThinkingText(events[..|events| - 1])
    + if events[|events| - 1].ThinkingDelta? then events[|events| - 1].thinking else ""
  }

  lemma ThinkingAppend(events: seq<StreamEvent>, e: StreamEvent)
    ensures ThinkingText(events + [e]) == ThinkingText(events) + if e.ThinkingDelta? then e.thinking else ""
  {
    assert (events + [e])[..|events|] == events;
  }

  lemma {:induction false} ThinkingSkips(events: seq<StreamEvent>, more: seq<StreamEvent>)
    requires forall e :: e in more ==> !e.ThinkingDelta?
    ensures ThinkingText(events + more) == ThinkingText(events)
  {
    if more == [] {
      assert events + more == events;
    } else {
      var n := |more| - 1;
      assert more[n] in more;
      ThinkingSkips(events, more[..n]);
      assert events + more == (events + more[..n]) + [more[n]];
      ThinkingAppend(events + more[..n], more[n]);
    }
  }

  function Thought(e: Event): string {
    match e
    case ThinkingPart(_, thinking) => thinking
    case BlockStart(_, Some(raw)) => if IsKind(raw, "thinking") then FieldText(raw, "thinking") else ""
    case _ => ""
  }

  function Thoughts(events: seq<Event>): string {
    if events == [] then "" else Thoughts(events[..|events| - 1]) + Thought(events[|events| - 1])
  }

  lemma StartedThought(raw: Json)
    requires BlockOf(raw).Some?
    ensures var b := BlockOf(raw).value;
      && (if StringAt(b, "type") == "thinking" then StringAt(b, "thinking") else "") == Thought(BlockStart(0, Some(raw)))
      && (StringAt(b, "type") == "thinking" ==> TextOf(b) == "")
  {
  }

  lemma StepThinks(d: Decoder, e: Event, parse: Parse)
    requires Passes(e)
    ensures Step(d, e, parse).GoesOn?
    ensures ThinkingText(Step(d, e, parse).d.sent) == ThinkingText(d.sent) + Thought(e)
  {
    hide ThinkingText, Appended, WithPartial, Stored, BlockOf, StringAt, TextOf, FieldText, IsKind, IsTool;
    assert ThinkingText(d.sent) + "" == ThinkingText(d.sent);
    match e
    case BlockStart(index, Some(raw)) =>
      var b := BlockOf(raw).value;
      StartedThought(raw);
      assert Thought(e) == Thought(BlockStart(0, Some(raw)));
      ThinkingAppend(d.sent, TextDelta(TextOf(b)));
      ThinkingAppend(d.sent, ThinkingDelta(StringAt(b, "thinking")));
    case TextPart(_, text) => ThinkingAppend(d.sent, TextDelta(text));
    case ThinkingPart(_, thinking) => ThinkingAppend(d.sent, ThinkingDelta(thinking));
    case _ =>
  }

  /** Whatever is streamed, the thinking shown is that of thinking blocks as they start and
      of the thinking parts, in order. */
  lemma {:induction false} ThoughtsAreSent(events: seq<Event>, parse: Parse)
    requires AllPass(events)
    ensures ThinkingText(After(START, events, parse).sent) == Thoughts(events)
  {
    hide Step, Passes, Thought;
    if events != [] {
      var n := |events| - 1;
      ThoughtsAreSent(events[..n], parse);
      StepThinks(After(START, events[..n], parse), events[n], parse);
    }
  }

  lemma {:induction false} ThoughtsAppend(a: seq<Event>, b: seq<Event>)
    ensures Thoughts(a + b) == Thoughts(a) + Thoughts(b)
  {
    hide Thought;
    if b == [] {
      assert a + b == a;
    } else {
      assert (a + b)[..|a + b| - 1] == a + b[..|b| - 1];
      ThoughtsAppend(a, b[..|b| - 1]);
    }
  }

  lemma {:induction false} SilentThinksNothing(events: seq<Event>)
    requires forall k :: 0 <= k < |events| ==> events[k].Silent?
    ensures Thoughts(events) == ""
  {
    if events != [] {
      SilentThinksNothing(events[..|events| - 1]);
    }
  }

  lemma {:induction false} PartsThink(parts: seq<Event>, index: int, kind: string)
    requires forall k :: 0 <= k < |parts| ==> Belongs(parts[k], index, kind)
    ensures Thoughts(parts) == Join(parts, Thinking)
    ensures kind != "thinking" ==> Join(parts, Thinking) == ""
  {
    if parts != [] {
      var n := |parts| - 1;
      PartsThink(parts[..n], index, kind);
      assert Belongs(parts[n], index, kind);
      assert Thought(parts[n]) == Pick(parts[n], Thinking);
    }
  }

  lemma PieceThinks(p: Piece, parse: Parse)
    requires Cuts(p, parse)
    ensures Thoughts(EventsOf(p)) == Thought(BlockStart(p.index, Some(Object(p.whole))))
  {
    hide Cuts, Thoughts, Thought, Join, Belongs, StringAt, TextOf;
    var first, last := BlockStart(p.index, Some(Object(p.start))), BlockStop(p.index);
    StartText(p, parse);
    PartsBelong(p, parse);
    LeadIsSilent(p, parse);
    PartsThink(p.parts, p.index, StringAt(p.start, "type"));
    SilentThinksNothing(p.lead);
    ThoughtsAppend(p.lead, [first]);
    ThoughtsAppend(p.lead + [first], p.parts);
    ThoughtsAppend(p.lead + [first] + p.parts, [last]);
    OneThought(first);
    OneThought(last);
    StopThinksNothing(p.index);
    WholeThinks(p, parse);
  }

  lemma OneThought(e: Event)
    ensures Thoughts([e]) == Thought(e)
  {
    hide Thought;
    assert [e][..0] == [];
  }

  lemma StopThinksNothing(index: int)
    ensures Thought(BlockStop(index)) == ""
  {
  }

  lemma WholeThinks(p: Piece, parse: Parse)
    requires Cuts(p, parse)
    requires StringAt(p.whole, "type") != "thinking" ==> Join(p.parts, Thinking) == ""
    requires StringAt(p.start, "type") == StringAt(p.whole, "type")
    ensures Thought(BlockStart(p.index, Some(Object(p.start)))) + Join(p.parts, Thinking)
      == Thought(BlockStart(p.index, Some(Object(p.whole))))
  {
    hide Join, Belongs, SameElsewhere;
    assert IsKind(Object(p.whole), "thinking") <==> StringAt(p.whole, "type") == "thinking";
    assert IsKind(Object(p.start), "thinking") <==> StringAt(p.start, "type") == "thinking";
    assert FieldText(Object(p.start), "thinking") + "" == FieldText(Object(p.start), "thinking");
  }

  /** What the thinking blocks of a response say. */
  function SaidThoughts(raws: seq<Json>): string {
    if raws == [] then "" else
    var raw := raws[|raws| - 1];
    SaidThoughts(raws[..|raws| - 1]) + if IsKind(raw, "thinking") then FieldText(raw, "thinking") else ""
  }

  lemma {:induction false} ScriptThinks(pieces: seq<Piece>, parse: Parse)
    requires Faithful(pieces, parse)
    ensures Thoughts(Script(pieces)) == SaidThoughts(Raws(pieces))
  {
    hide Cuts, Thoughts, EventsOf;
    if pieces == [] {
      NoThoughts();
    } else {
      var n := |pieces| - 1;
      ScriptThinks(pieces[..n], parse);
      ThoughtsAppend(Script(pieces[..n]), EventsOf(pieces[n]));
      PieceThinks(pieces[n], parse);
      assert Raws(pieces)[..n] == Raws(pieces[..n]);
    }
  }

  lemma NoThoughts()
    ensures Thoughts([]) == ""
  {
  }

  /** The thinking deltas of a faithful stream spell what its thinking blocks say. */
  lemma {:induction false} ThinkingIsSpelled(pieces: seq<Piece>, tail: seq<Event>, after: seq<Event>, end: End, parse: Parse)
    requires Faithful(pieces, parse) && forall k :: 0 <= k < |tail| ==> tail[k].Silent?
    ensures ThinkingText(Sent(pieces, tail, after, end, parse)) == SaidThoughts(Raws(pieces))
  {
    hide Faithful, Sent, Thoughts, ThinkingText, SaidThoughts, WholeMessage, Boundary, After, AllPass, Bracketed, Kept;
    SentIsFinished(pieces, tail, after, end, parse);
    ScriptMirrors(pieces, parse);
    ThoughtsAreSent(Script(pieces), parse);
    ScriptThinks(pieces, parse);
    BoundaryIsBracketed(pieces, parse);
    BracketIsBoundary(Boundary(pieces), Tools(pieces), Tools(pieces));
    var sent, boundary := After(START, Script(pieces), parse).sent, Boundary(pieces);
    var last := boundary + [Done(WholeMessage(Wholes(Kept(pieces))))];
    assert sent + last == sent + boundary + [Done(WholeMessage(Wholes(Kept(pieces))))];
    ThinkingSkips(sent, last);
  }

  // ----- the calls announced

  /** A boundary event of this block: under its own index, id and name. */
  predicate Announces(e: StreamEvent, p: Piece) {
    && IsKind(Object(p.whole), "tool_use") && IsBoundary(e) && e.index == p.index
    && e.id == FieldText(Object(p.whole), "id") && e.name == FieldText(Object(p.whole), "name")
  }

  lemma BoundaryAnnounces(p: Piece, k: nat)
    requires k < |BoundaryOf(p)|
    ensures Announces(BoundaryOf(p)[k], p)
  {
  }

  /** The calls bracketed before the done event are the tool blocks, and every boundary
      event carries the index, id and name of its own block. */
  lemma {:induction false} ToolEventsAreOwn(pieces: seq<Piece>, k: nat, i: int)
    ensures k < |Boundary(pieces)| ==> exists n :: 0 <= n < |pieces| && Announces(Boundary(pieces)[k], pieces[n])
    ensures i in Tools(pieces) <==> exists n :: 0 <= n < |pieces| && pieces[n].index == i && IsKind(Object(pieces[n].whole), "tool_use")
  {
    hide BoundaryOf, Announces;
    if pieces != [] {
      var n := |pieces| - 1;
      var before := pieces[..n];
      ToolEventsAreOwn(before, k, i);
      assert IsTool(pieces[n].whole) <==> IsKind(Object(pieces[n].whole), "tool_use");
      if k < |Boundary(before)| {
        var m :| 0 <= m < n && Announces(Boundary(before)[k], before[m]);
        assert Announces(Boundary(pieces)[k], pieces[m]);
      } else if k < |Boundary(pieces)| {
        BoundaryAnnounces(pieces[n], k - |Boundary(before)|);
        assert Announces(Boundary(pieces)[k], pieces[n]);
      }
      if m :| 0 <= m < n && before[m].index == i && IsKind(Object(before[m].whole), "tool_use") {
        assert pieces[m].index == i && IsKind(Object(pieces[m].whole), "tool_use");
      }
      if m :| 0 <= m <= n && pieces[m].index == i && IsKind(Object(pieces[m].whole), "tool_use") {
        if m < n {
          assert before[m].index == i && IsKind(Object(before[m].whole), "tool_use");
        }
      }
    }
  }

  // ----- why a stream stopped

  function ProviderError(cause: string): StreamEvent { Error(Failure(OtherCategory("provider"), cause)) }

  /** An error event of the provider, an event or a block that does not decode, and each
      way the body can end send their own error, after everything sent before. */
  lemma {:induction false} StopsSayWhy(events: seq<Event>, stop: Event, after: seq<Event>, end: End, parse: Parse)
    requires AllPass(events)
    ensures var before := After(START, events, parse).sent; var sent := Run(START, events + ([stop] + after), end, parse);
      && (stop.ErrorEvent? ==> sent == before + [ProviderError("provider error")])
      && (stop.Undecodable? ==> sent == before + [ProviderError("decode")])
      && (stop.BlockStart? && stop.raw.Some? && !Decodes(stop.raw.value) ==> sent == before + [ProviderError("decode")])
    ensures var before := After(START, events, parse).sent; var sent := Run(START, events, end, parse);
      && (end == Clean ==> sent == before + [ProviderError("decode")])
      && (end == ReadFailed ==> sent == before + [ProviderError("transport")])
      && (end == ContextEnded ==> sent == before)
  {
    hide AllPass, After, Finished, Appended, WithPartial, Began, Stopped, Decodes, BlockOf;
    RunPasses(START, events, [stop] + after, end, parse);
    RunPasses(START, events, [], end, parse);
    assert events + [] == events;
    if stop.BlockStart? && stop.raw.Some? {
      RawBlock(stop.raw.value);
    }
    var sent := After(START, events, parse).sent;
    assert sent + [] == sent;
  }

  // ----- tool inputs that do not read

  lemma {:induction false} AscendingAscends(keys: set<int>)
    ensures IsAscending(Ascending(keys))
  {
    if keys != {} {
      LeastExists(keys);
      var m :| m in keys && forall k :: k in keys ==> m <= k;
      var rest := Ascending(keys - {m});
      AscendingAscends(keys - {m});
      forall j | 0 <= j < |rest|
        ensures m < rest[j]
      {
        AscendingMembers(keys - {m}, rest[j]);
      }
    }
  }

  /** The input of the tool block at an index, streamed or given at its start, is an object. */
  predicate InputReads(t: Table, index: int, parse: Parse)
    requires index in t.blocks
  {
    IsKind(Object(t.blocks[index]), "tool_use") ==>
      if index in t.toolInputs && t.toolInputs[index] != "" then parse(t.toolInputs[index]).Some?
      else "input" in t.blocks[index] ==> t.blocks[index]["input"].Null? || t.blocks[index]["input"].Object?
  }

  lemma {:induction false} ResolvesExactly(t: Table, order: seq<int>, n: nat, parse: Parse)
    requires n <= |order| && IsAscending(order) && forall k :: 0 <= k < |order| ==> order[k] in t.blocks
    ensures var (t1, calls) := Resolve(t, order, n, parse);
      && (calls.Some? <==> forall k :: 0 <= k < n ==> InputReads(t, order[k], parse))
      && t1.toolInputs == t.toolInputs && t1.blocks.Keys == t.blocks.Keys
      && forall k :: n <= k < |order| ==> t1.blocks[order[k]] == t.blocks[order[k]]
  {
    hide StringAt, InputReads;
    if n > 0 {
      ResolvesExactly(t, order, n - 1, parse);
      var t1 := Resolve(t, order, n - 1, parse).0;
      InputReadsHere(t, t1, order[n - 1], parse);
    }
  }

  lemma InputReadsHere(t: Table, t1: Table, index: int, parse: Parse)
    requires index in t.blocks && index in t1.blocks && t1.blocks[index] == t.blocks[index] && t1.toolInputs == t.toolInputs
    ensures InputReads(t, index, parse) <==> (IsTool(t1.blocks[index]) ==> ToolInput(t1.blocks[index], PartialAt(t1, index), parse).Some?)
  {
  }

  predicate AllInputsRead(t: Table, parse: Parse) { forall i :: i in t.blocks ==> InputReads(t, i, parse) }

  lemma FinishesExactly(t: Table, parse: Parse)
    ensures ResolveAll(t, parse).1.Some? <==> AllInputsRead(t, parse)
  {
    hide InputReads, Resolve;
    var order := Ascending(t.blocks.Keys);
    AscendingAscends(t.blocks.Keys);
    forall i
      ensures i in order <==> i in t.blocks
    {
      AscendingMembers(t.blocks.Keys, i);
    }
    ResolvesExactly(t, order, |order|, parse);
    assert forall i :: i in t.blocks ==> exists k :: 0 <= k < |order| && order[k] == i;
  }

  /** A stream that reaches its stop event is done exactly when every tool block's input is
      an object; otherwise it ends in a decode error, and no boundary event is sent. */
  lemma {:induction false} DoneExactlyIfInputsRead(events: seq<Event>, after: seq<Event>, end: End, parse: Parse)
    requires AllPass(events)
    ensures var d := After(START, events, parse); var sent := Run(START, events + ([MessageStop] + after), end, parse);
      && (AllInputsRead(d.table, parse) <==> sent != [] && sent[|sent| - 1].Done?)
      && (!AllInputsRead(d.table, parse) ==> sent == d.sent + [ProviderError("decode")])
  {
    hide AllPass, After, Contents, Metadata, AllInputsRead, ResolveAll;
    RunPasses(START, events, [MessageStop] + after, end, parse);
    FinishesExactly(After(START, events, parse).table, parse);
  }

  /** The input text streamed for an index. */
  function InputText(events: seq<Event>, index: int): string {
    if events == [] then "" else
    var e := events[|events| - 1];
    InputText(events[..|events| - 1], index) + if e.InputPart? && e.index == index then e.partial else ""
  }

  /** The input held for an index is its parts joined, whatever else is streamed. */
  lemma {:induction false} InputPartsJoin(events: seq<Event>, index: int, parse: Parse)
    requires AllPass(events)
    ensures var t := After(START, events, parse).table;
      (if index in t.toolInputs then t.toolInputs[index] else "") == InputText(events, index)
  {
    hide Passes;
    if events != [] {
      var n := |events| - 1;
      InputPartsJoin(events[..n], index, parse);
      StepKeepsInput(After(START, events[..n], parse), events[n], index, parse);
    }
  }

  lemma StepKeepsInput(d: Decoder, e: Event, index: int, parse: Parse)
    requires Passes(e)
    ensures Step(d, e, parse).GoesOn?
    ensures PartialAt(Step(d, e, parse).d.table, index) == PartialAt(d.table, index) + if e.InputPart? && e.index == index then e.partial else ""
  {
    hide StringAt, TextOf, BlockOf, IsTool;
    assert PartialAt(d.table, index) + "" == PartialAt(d.table, index);
  }

  // ----- parts of a block that has not started

  /** A part for an index without a block, or with one that has no type, makes it a block
      of the part's own kind; a block's own type is left alone, and its text only grows. */
  lemma PartsTypeBlocks(t: Table, index: int, kind: string, key: string, value: string)
    requires value != "" && key != "type"
    ensures var t1 := Appended(t, index, kind, key, value); var was := if index in t.blocks then t.blocks[index] else map[];
      && t1.blocks.Keys == t.blocks.Keys + {index} && t1.toolInputs == t.toolInputs
      && (forall other :: other in t.blocks && other != index ==> t1.blocks[other] == t.blocks[other])
      && t1.blocks[index] == was["type" := if "type" in was && !was["type"].Null? then was["type"] else String(kind)]
                                [key := String(FieldText(Object(was), key) + value)]
  {
    var was := if index in t.blocks then t.blocks[index] else map[];
    assert FieldText(Object(was), key) == StringAt(was, key);
    var typed := was["type" := if "type" in was && !was["type"].Null? then was["type"] else String(kind)];
    assert Ensured(t, index, kind).blocks[index] == typed;
    assert StringAt(typed, key) == StringAt(was, key);
  }
}
