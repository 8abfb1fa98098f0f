/** Anthropic Messages responses, whole and streamed: content blocks are rebuilt from
    their fragments so that the streamed message is the one a whole response gives. */
module AnthropicStream {
  import opened Prelude
  import opened Core
  import opened Boundaries
  import opened ProviderStream

  /** A content block as decoded JSON. */
  type Block = map<string, Json>

  const CONTENT_KEY := "anthropic_messages_content"

  function StringAt(b: Block, key: string): string { if key in b && b[key].String? then b[key].text else "" }

  predicate IsTextual(b: Block, key: string) { key in b ==> b[key].String? || b[key].Null? }

  /** A block the typed decoder accepts. */
  predicate WellTyped(b: Block) {
    && IsTextual(b, "type") && IsTextual(b, "text") && IsTextual(b, "thinking") && IsTextual(b, "signature")
    && IsTextual(b, "data") && IsTextual(b, "id") && IsTextual(b, "name") && IsTextual(b, "tool_use_id")
    && ("input" in b ==> b["input"].Object? || b["input"].Null?)
  }

  function BlockOf(raw: Json): Option<Block> {
    match raw
    case Object(fields) => if WellTyped(fields) then Some(fields) else None
    case Null => Some(map[])
    case _ => None
  }

  function Decoded(raws: seq<Json>): seq<Block> {
    seq(|raws|, k requires 0 <= k < |raws| => if BlockOf(raws[k]).Some? then BlockOf(raws[k]).value else map[])
  }

  function InputOf(b: Block): map<string, Json> {
    if "input" in b && b["input"].Object? then b["input"].fields else map[]
  }

  predicate IsTool(b: Block) { StringAt(b, "type") == "tool_use" }

  function TextOf(b: Block): string { if StringAt(b, "type") == "text" then StringAt(b, "text") else "" }

  function CallOf(b: Block): seq<ToolCall> {
    if IsTool(b) then [ToolCall(StringAt(b, "id"), StringAt(b, "name"), InputOf(b))] else []
  }

  // ----- a whole response

  function Texts(bs: seq<Block>): string {
    if bs == [] then "" else Texts(bs[..|bs| - 1]) + TextOf(bs[|bs| - 1])
  }

  function Calls(bs: seq<Block>): seq<ToolCall> {
    if bs == [] then [] else Calls(bs[..|bs| - 1]) + CallOf(bs[|bs| - 1])
  }

  function Metadata(bs: seq<Block>): map<string, Json> {
    if bs == [] then map[]
    else map[CONTENT_KEY := List(seq(|bs|, k requires 0 <= k < |bs| => Object(bs[k])))]
  }

  /** The message a whole response with these blocks carries. */
  function WholeMessage(bs: seq<Block>): Message { Message(Assistant, "", "", Texts(bs), Calls(bs), Metadata(bs)) }

  // ----- the same, read off the raw JSON

  predicate IsKind(raw: Json, kind: string) { raw.Object? && "type" in raw.fields && raw.fields["type"] == String(kind) }

  function FieldText(raw: Json, key: string): string {
    match raw
    case Object(fields) => (
      if key !in fields then "" else
      match fields[key]
      case String(text) => text
      case _ => "")
    case _ => ""
  }

  function FieldObject(raw: Json, key: string): map<string, Json> {
    match raw
    case Object(fields) => (
      if key !in fields then map[] else
      match fields[key]
      case Object(inner) => inner
      case _ => map[])
    case _ => map[]
  }

  const TEXT_KEYS := {"type", "text", "thinking", "signature", "data", "id", "name", "tool_use_id"}

  /** JSON that decodes as a content block. */
  predicate Decodes(raw: Json) {
    raw.Null? || (
      && raw.Object?
      && (forall key :: key in TEXT_KEYS && key in raw.fields ==> raw.fields[key].String? || raw.fields[key].Null?)
      && ("input" in raw.fields ==> raw.fields["input"].Object? || raw.fields["input"].Null?))
  }

  function SaidText(raws: seq<Json>): string {
    if raws == [] then "" else
    var raw := raws[|raws| - 1];
    SaidText(raws[..|raws| - 1]) + if IsKind(raw, "text") then FieldText(raw, "text") else ""
  }

  function SaidCalls(raws: seq<Json>): seq<ToolCall> {
    if raws == [] then [] else
    var raw := raws[|raws| - 1];
    SaidCalls(raws[..|raws| - 1])
    + if IsKind(raw, "tool_use") then [ToolCall(FieldText(raw, "id"), FieldText(raw, "name"), FieldObject(raw, "input"))] else []
  }

  /** The metadata keeps every block, with all its keys and in order. */
  ghost predicate KeepsBlocks(metadata: map<string, Json>, raws: seq<Json>) {
    if raws == [] then metadata == map[] else
    && metadata.Keys == {"anthropic_messages_content"}
    && var kept := metadata["anthropic_messages_content"];
    && kept.List? && |kept.items| == |raws|
    && forall k :: 0 <= k < |raws| ==> kept.items[k] == if raws[k].Object? then Object(raws[k].fields) else Object(map[])
  }

  lemma RawBlock(raw: Json)
    ensures Decodes(raw) <==> BlockOf(raw).Some?
    ensures BlockOf(raw).Some? ==> var b := BlockOf(raw).value;
      && TextOf(b) == (if IsKind(raw, "text") then FieldText(raw, "text") else "")
      && CallOf(b) == (if IsKind(raw, "tool_use") then [ToolCall(FieldText(raw, "id"), FieldText(raw, "name"), FieldObject(raw, "input"))] else [])
      && Object(b) == if raw.Object? then Object(raw.fields) else Object(map[])
  {
    if raw.Object? {
      assert Decodes(raw) <==> WellTyped(raw.fields) by {
        assert forall key :: key in TEXT_KEYS ==>
          key == "type" || key == "text" || key == "thinking" || key == "signature"
          || key == "data" || key == "id" || key == "name" || key == "tool_use_id";
      }
    }
  }

  lemma {:induction false} DecodedSays(raws: seq<Json>)
    requires forall k :: 0 <= k < |raws| ==> BlockOf(raws[k]).Some?
    ensures Texts(Decoded(raws)) == SaidText(raws) && Calls(Decoded(raws)) == SaidCalls(raws)
  {
    hide BlockOf, TextOf, CallOf, IsKind, FieldText, FieldObject, Decodes;
    if raws != [] {
      var n := |raws| - 1;
      assert Decoded(raws)[..n] == Decoded(raws[..n]);
      DecodedSays(raws[..n]);
      RawBlock(raws[n]);
    }
  }

  lemma DecodedIsKept(raws: seq<Json>)
    requires forall k :: 0 <= k < |raws| ==> BlockOf(raws[k]).Some?
    ensures KeepsBlocks(Metadata(Decoded(raws)), raws)
  {
    hide BlockOf, TextOf, CallOf, IsKind, FieldText, FieldObject, Decodes;
    forall k | 0 <= k < |raws|
      ensures Object(Decoded(raws)[k]) == if raws[k].Object? then Object(raws[k].fields) else Object(map[])
    {
      RawBlock(raws[k]);
    }
  }

  lemma NothingSaid()
    ensures Texts([]) == "" && Calls([]) == []
  {
  }

  lemma SaidByBlock(bs: seq<Block>, b: Block)
    ensures Texts(bs + [b]) == Texts(bs) + (if StringAt(b, "type") == "text" then StringAt(b, "text") else "")
    ensures Calls(bs + [b])
      == Calls(bs) + if StringAt(b, "type") == "tool_use" then [ToolCall(StringAt(b, "id"), StringAt(b, "name"), InputOf(b))] else []
  {
    hide StringAt, InputOf;
    assert (bs + [b])[..|bs|] == bs;
  }

  /** A response is refused exactly when one of its blocks does not decode. */
  method ModelResponse(raws: seq<Json>) returns (r: Option<Message>)
    ensures r == None <==> exists k :: 0 <= k < |raws| && !Decodes(raws[k])
    ensures r.Some? ==> r.value == WholeMessage(Decoded(raws))
    ensures r.Some? ==> r.value.role == Assistant && r.value.content == SaidText(raws) && r.value.toolCalls == SaidCalls(raws)
    ensures r.Some? ==> KeepsBlocks(r.value.metadata, raws)
  {
    hide BlockOf, StringAt, InputOf, Decodes, SaidText, SaidCalls, KeepsBlocks, Texts, Calls;
    NothingSaid();
    forall k | 0 <= k < |raws|
      ensures Decodes(raws[k]) <==> BlockOf(raws[k]).Some?
    {
      RawBlock(raws[k]);
    }
    var text, toolCalls := "", [];
    var rawContent: seq<Block> := [];
    for k := 0 to |raws|
      invariant |rawContent| == k && forall j :: 0 <= j < k ==> BlockOf(raws[j]) == Some(rawContent[j])
      invariant text == Texts(rawContent) && toolCalls == Calls(rawContent)
    {
      var decoded := BlockOf(raws[k]);
      if decoded == None {
        return None;
      }
      var block := decoded.value;
      SaidByBlock(rawContent, block);
      rawContent := rawContent + [block];
      if StringAt(block, "type") == "text" {
        text := text + StringAt(block, "text");
      } else if StringAt(block, "type") == "tool_use" {
        toolCalls := toolCalls + [ToolCall(StringAt(block, "id"), StringAt(block, "name"), InputOf(block))];
      }
    }
    assert rawContent == Decoded(raws);
    DecodedSays(raws);
    DecodedIsKept(raws);
    r := Some(Message(Assistant, "", "", text, toolCalls, Metadata(rawContent)));
  }

  // ----- indexes in order

  lemma EmptyOrNot(keys: set<int>)
    ensures keys == {} || exists k :: k in keys
  {
    if forall k :: k !in keys {
      assert keys == {};
    }
  }

  lemma Least(keys: set<int>) returns (m: int)
    requires keys != {}
    ensures m in keys && forall k :: k in keys ==> m <= k
    decreases |keys|
  {
    EmptyOrNot(keys);
    m :| m in keys;
    var rest := keys - {m};
    if rest != {} {
      var n := Least(rest);
      if n < m {
        m := n;
      }
    }
    forall k | k in keys
      ensures m <= k
    {
      assert k in rest || k !in rest;
    }
  }

  lemma LeastExists(keys: set<int>)
    requires keys != {}
    ensures exists m :: m in keys && forall k :: k in keys ==> m <= k
  {
    var m := Least(keys);
  }

  function Ascending(keys: set<int>): seq<int> {
    if keys == {} then [] else
    LeastExists(keys);
    var m :| m in keys && forall k :: k in keys ==> m <= k;
    [m] + Ascending(keys - {m})
  }

  ghost predicate IsAscending(s: seq<int>) { forall i, j :: 0 <= i < j < |s| ==> s[i] < s[j] }

  lemma {:induction false} AscendingSorts(s: seq<int>, keys: set<int>)
    requires IsAscending(s) && forall k :: k in keys <==> k in s
    ensures Ascending(keys) == s
  {
    if s == [] {
      assert keys == {};
    } else {
      assert s[0] in s;
      AscendingSorts(s[1..], keys - {s[0]});
    }
  }

  lemma {:induction false} AscendingMembers(keys: set<int>, k: int)
    ensures k in Ascending(keys) <==> k in keys
  {
    if keys != {} {
      LeastExists(keys);
      var m :| m in keys && forall k :: k in keys ==> m <= k;
      AscendingMembers(keys - {m}, k);
    }
  }

  // ----- blocks being streamed

  datatype Table = Table(blocks: map<int, Block>, toolInputs: map<int, string>)

  function Stored(t: Table, index: int, b: Block): Table { if b == map[] then t else t.(blocks := t.blocks[index := b]) }

  function Typed(b: Block, blockType: string): Block {
    if "type" !in b || b["type"].Null? then b["type" := String(blockType)] else b
  }

  function Ensured(t: Table, index: int, blockType: string): Table {
    var b := if index in t.blocks then t.blocks[index] else map["type" := String(blockType)];
    t.(blocks := t.blocks[index := Typed(b, blockType)])
  }

  function Grown(b: Block, key: string, value: string): Block { b[key := String(StringAt(b, key) + value)] }

  function Appended(t: Table, index: int, blockType: string, key: string, value: string): Table {
    if value == "" then t else
    var t1 := Ensured(t, index, blockType);
    t1.(blocks := t1.blocks[index := Grown(t1.blocks[index], key, value)])
  }

  function PartialAt(t: Table, index: int): string { if index in t.toolInputs then t.toolInputs[index] else "" }

  function WithPartial(t: Table, index: int, partial: string): Table {
    if partial == "" then t else t.(toolInputs := t.toolInputs[index := PartialAt(t, index) + partial])
  }

  /** Tool input text to an object: blank text is the empty object, None is an error. */
  type Parse = string -> Option<map<string, Json>>

  function ToolInput(b: Block, partial: string, parse: Parse): Option<map<string, Json>> {
    if partial != "" then parse(partial)
    else if "input" !in b || b["input"].Null? then Some(map[])
    else if b["input"].Object? then Some(b["input"].fields)
    else None
  }

  /** toolCalls over the first n indexes: the blocks with their inputs filled in, and the
      calls unless an input failed. */
  function Resolve(t: Table, order: seq<int>, n: nat, parse: Parse): (Table, Option<seq<ToolCall>>)
    requires n <= |order|
  {
    if n == 0 then (t, Some([])) else
    var (t1, calls) := Resolve(t, order, n - 1, parse);
    if calls == None || order[n - 1] !in t1.blocks then (t1, calls) else
    var b := t1.blocks[order[n - 1]];
    if !IsTool(b) then (t1, calls) else
    var input := ToolInput(b, PartialAt(t1, order[n - 1]), parse);
    if input == None then (t1, None)
    else (t1.(blocks := t1.blocks[order[n - 1] := b["input" := Object(input.value)]]),
          Some(calls.value + [ToolCall(StringAt(b, "id"), StringAt(b, "name"), input.value)]))
  }

  function ResolveAll(t: Table, parse: Parse): (Table, Option<seq<ToolCall>>) {
    var order := Ascending(t.blocks.Keys);
    Resolve(t, order, |order|, parse)
  }

  lemma {:induction false} ResolveKeepsKeys(t: Table, order: seq<int>, n: nat, parse: Parse)
    requires n <= |order|
    ensures var t1 := Resolve(t, order, n, parse).0; t1.blocks.Keys == t.blocks.Keys && t1.toolInputs == t.toolInputs
    ensures Resolve(t, order, n, parse).1 == None ==>
      forall m :: n <= m <= |order| ==> Resolve(t, order, m, parse) == Resolve(t, order, n, parse)
  {
    if n > 0 {
      ResolveKeepsKeys(t, order, n - 1, parse);
    }
    if Resolve(t, order, n, parse).1 == None {
      FailureStays(t, order, n, |order|, parse);
    }
  }

  lemma {:induction false} FailureStays(t: Table, order: seq<int>, n: nat, m: nat, parse: Parse)
    requires n <= m <= |order| && Resolve(t, order, n, parse).1 == None
    ensures forall k :: n <= k <= m ==> Resolve(t, order, k, parse) == Resolve(t, order, n, parse)
    decreases m
  {
    if n < m {
      FailureStays(t, order, n, m - 1, parse);
    }
  }

  function Contents(t: Table): seq<Block> {
    var order := Ascending(t.blocks.Keys);
    seq(|order|, k requires 0 <= k < |order| => if order[k] in t.blocks then t.blocks[order[k]] else map[])
  }

  class ContentBlocks {
    var blocks: map<int, Block>
    var toolInputs: map<int, string>

    constructor ()
      ensures State() == Table(map[], map[])
    {
      blocks, toolInputs := map[], map[];
    }

    function State(): Table
      reads this
    {
      Table(blocks, toolInputs)
    }

    method Set(index: int, block: Block)
      modifies this`blocks
      ensures State() == Stored(old(State()), index, block)
    {
      if block == map[] {
        return;
      }
      blocks := blocks[index := block];
    }

    method Ensure(index: int, blockType: string) returns (block: Block)
      modifies this`blocks
      ensures State() == Ensured(old(State()), index, blockType)
      ensures index in blocks && block == blocks[index]
    {
      if index !in blocks {
        blocks := blocks[index := map["type" := String(blockType)]];
      }
      block := blocks[index];
      if "type" !in block || block["type"] == Null {
        block := block["type" := String(blockType)];
      }
      blocks := blocks[index := block];
    }

    method AppendString(index: int, blockType: string, key: string, value: string)
      modifies this`blocks
      ensures State() == Appended(old(State()), index, blockType, key, value)
    {
      if value == "" {
        return;
      }
      var block := Ensure(index, blockType);
      var existing := StringAt(block, key);
      block := block[key := String(existing + value)];
      blocks := blocks[index := block];
    }

    method AppendPartialJSON(index: int, partial: string)
      modifies this`toolInputs
      ensures State() == WithPartial(old(State()), index, partial)
    {
      if partial == "" {
        return;
      }
      var input := if index in toolInputs then toolInputs[index] else "";
      toolInputs := toolInputs[index := input + partial];
    }

    method ToolCalls(parse: Parse) returns (result: Option<seq<ToolCall>>)
      modifies this`blocks
      ensures (State(), result) == ResolveAll(old(State()), parse)
    {
      hide StringAt, ToolInput, PartialAt;
      var indexes := Ascending(blocks.Keys);
      var calls: seq<ToolCall> := [];
      ghost var before := State();
      for k := 0 to |indexes|
        invariant (State(), Some(calls)) == Resolve(before, indexes, k, parse)
      {
        ResolveKeepsKeys(before, indexes, k, parse);
        AscendingMembers(before.blocks.Keys, indexes[k]);
        var block := blocks[indexes[k]];
        if StringAt(block, "type") != "tool_use" {
          continue;
        }
        var id, name := StringAt(block, "id"), StringAt(block, "name");
        var input := ToolInput(block, PartialAt(State(), indexes[k]), parse);
        if input == None {
          ResolveKeepsKeys(before, indexes, k + 1, parse);
          return None;
        }
        block := block["input" := Object(input.value)];
        blocks := blocks[indexes[k] := block];
        calls := calls + [ToolCall(id, name, input.value)];
      }
      result := Some(calls);
    }

    method Content() returns (content: seq<Block>)
      ensures content == Contents(State())
    {
      var indexes := Ascending(blocks.Keys);
      content := [];
      for k := 0 to |indexes|
        invariant content == Contents(State())[..k]
      {
        AscendingMembers(blocks.Keys, indexes[k]);
        content := content + [blocks[indexes[k]]];
      }
    }
  }

  // ----- the decoder

  datatype Event =
    | Silent
    | BlockStart(index: int, raw: Option<Json>)
    | TextPart(index: int, text: string)
    | ThinkingPart(index: int, thinking: string)
    | SignaturePart(index: int, signature: string)
    | InputPart(index: int, partial: string)
    | BlockStop(index: int)
    | MessageStop
    | ErrorEvent
    | Undecodable

  datatype Decoder = Decoder(content: string, table: Table, boundary: seq<StreamEvent>, sent: seq<StreamEvent>)

  const START := Decoder("", Table(map[], map[]), [], [])

  datatype Progress = GoesOn(d: Decoder) | Ends(sent: seq<StreamEvent>)

  function Began(d: Decoder, index: int, b: Block): Decoder {
    var kind := StringAt(b, "type");
    Decoder(d.content + TextOf(b), Stored(d.table, index, b),
            if kind == "tool_use" then d.boundary + [ToolCallStart(index, StringAt(b, "id"), StringAt(b, "name"))] else d.boundary,
            if TextOf(b) != "" then d.sent + [TextDelta(TextOf(b))]
            else if kind == "thinking" && StringAt(b, "thinking") != "" then d.sent + [ThinkingDelta(StringAt(b, "thinking"))]
            else d.sent)
  }

  function Stopped(d: Decoder, index: int): Decoder {
    if index !in d.table.blocks || !IsTool(d.table.blocks[index]) then d else
    var b := d.table.blocks[index];
    d.(boundary := d.boundary + [ToolCallDone(index, StringAt(b, "id"), StringAt(b, "name"))])
  }

  function Finished(d: Decoder, parse: Parse): seq<StreamEvent> {
    var (t, calls) := ResolveAll(d.table, parse);
    if calls == None then d.sent + [DECODE_FAILED]
    else d.sent + d.boundary + [Done(Message(Assistant, "", "", d.content, calls.value, Metadata(Contents(t))))]
  }

  function Step(d: Decoder, e: Event, parse: Parse): Progress {
    match e
    case Silent => GoesOn(d)
    case BlockStart(_, None) => GoesOn(d)
    case BlockStart(index, Some(raw)) =>
      if BlockOf(raw) == None then Ends(d.sent + [DECODE_FAILED]) else GoesOn(Began(d, index, BlockOf(raw).value))
    case TextPart(index, text) =>
      if text == "" then GoesOn(d)
      else GoesOn(Decoder(d.content + text, Appended(d.table, index, "text", "text", text), d.boundary, d.sent + [TextDelta(text)]))
    case ThinkingPart(index, thinking) =>
      if thinking == "" then GoesOn(d)
      else GoesOn(d.(table := Appended(d.table, index, "thinking", "thinking", thinking), sent := d.sent + [ThinkingDelta(thinking)]))
    case SignaturePart(index, signature) =>
      GoesOn(d.(table := Appended(d.table, index, "thinking", "signature", signature)))
    case InputPart(index, partial) => GoesOn(d.(table := WithPartial(d.table, index, partial)))
    case BlockStop(index) => GoesOn(Stopped(d, index))
    case MessageStop => Ends(Finished(d, parse))
    case ErrorEvent => Ends(d.sent + [PROVIDER_FAILED])
    case Undecodable => Ends(d.sent + [DECODE_FAILED])
  }

  /** Everything sent in all, from a decoder state and the events still to come. */
  function Run(d: Decoder, events: seq<Event>, end: End, parse: Parse): seq<StreamEvent>
    decreases |events|
  {
    if events == [] then d.sent + AtEnd(end) else
    match Step(d, events[0], parse)
    case GoesOn(d1) => Run(d1, events[1..], end, parse)
    case Ends(sent) => sent
  }

  method Stream(events: seq<Event>, end: End, parse: Parse) returns (sent: seq<StreamEvent>)
    ensures sent == Run(START, events, end, parse)
  {
    var content, boundary := "", [];
    sent := [];
    var blocks := new ContentBlocks();
    for k := 0 to |events|
      invariant fresh(blocks)
      invariant Run(Decoder(content, blocks.State(), boundary, sent), events[k..], end, parse) == Run(START, events, end, parse)
    {
      assert events[k..][1..] == events[k + 1..];
      ghost var before := Decoder(content, blocks.State(), boundary, sent);
      match events[k]
      case Silent =>
      case BlockStart(index, None) =>
      case BlockStart(index, Some(raw)) =>
        var decoded := BlockOf(raw);
        if decoded == None {
          return sent + [DECODE_FAILED];
        }
        var block := decoded.value;
        blocks.Set(index, block);
        var kind := StringAt(block, "type");
        if kind == "tool_use" {
          boundary := boundary + [ToolCallStart(index, StringAt(block, "id"), StringAt(block, "name"))];
        }
        if kind == "text" && StringAt(block, "text") != "" {
          content := content + StringAt(block, "text");
          sent := sent + [TextDelta(StringAt(block, "text"))];
        } else if kind == "thinking" && StringAt(block, "thinking") != "" {
          sent := sent + [ThinkingDelta(StringAt(block, "thinking"))];
        }
        assert before.content + "" == before.content;
        assert Decoder(content, blocks.State(), boundary, sent) == Began(before, index, block);
      case TextPart(index, text) =>
        if text != "" {
          content := content + text;
          blocks.AppendString(index, "text", "text", text);
          sent := sent + [TextDelta(text)];
        }
      case ThinkingPart(index, thinking) =>
        if thinking != "" {
          blocks.AppendString(index, "thinking", "thinking", thinking);
          sent := sent + [ThinkingDelta(thinking)];
        }
      case SignaturePart(index, signature) =>
        blocks.AppendString(index, "thinking", "signature", signature);
      case InputPart(index, partial) =>
        blocks.AppendPartialJSON(index, partial);
      case BlockStop(index) =>
        if index in blocks.blocks && StringAt(blocks.blocks[index], "type") == "tool_use" {
          var block := blocks.blocks[index];
          boundary := boundary + [ToolCallDone(index, StringAt(block, "id"), StringAt(block, "name"))];
        }
      case MessageStop =>
        var calls := blocks.ToolCalls(parse);
        if calls == None {
          return sent + [DECODE_FAILED];
        }
        var rawContent := blocks.Content();
        return sent + boundary + [Done(Message(Assistant, "", "", content, calls.value, Metadata(rawContent)))];
      case ErrorEvent => return sent + [PROVIDER_FAILED];
      case Undecodable => return sent + [DECODE_FAILED];
    }
    match end
    case Clean => sent := sent + [DECODE_FAILED];
    case ReadFailed => sent := sent + [TRANSPORT_FAILED];
    case ContextEnded =>
  }

  // ----- a response cut into stream events

  /** One block of a response as the stream sends it: a start block, the parts that follow
      it, and silent events anywhere around. */
  datatype Piece = Piece(index: int, whole: Block, start: Block, lead: seq<Event>, parts: seq<Event>)

  datatype Field = Text | Thinking | Signature | Input

  function Pick(e: Event, f: Field): string {
    match (e, f)
    case (TextPart(_, text), Text) => text
    case (ThinkingPart(_, thinking), Thinking) => thinking
    case (SignaturePart(_, signature), Signature) => signature
    case (InputPart(_, partial), Input) => partial
    case _ => ""
  }

  function Join(parts: seq<Event>, f: Field): string {
    if parts == [] then "" else Join(parts[..|parts| - 1], f) + Pick(parts[|parts| - 1], f)
  }

  /** A part that belongs to a block of this kind at this index. */
  predicate Belongs(e: Event, index: int, kind: string) {
    match e
    case Silent => true
    case TextPart(i, _) => i == index && kind == "text"
    case ThinkingPart(i, _) => i == index && kind == "thinking"
    case SignaturePart(i, _) => i == index && kind == "thinking"
    case InputPart(i, _) => i == index && kind == "tool_use"
    case _ => false
  }

  /** The key holds the same in both blocks, or in the whole block it holds what the start
      block has there followed by `more`. */
  predicate Continues(start: Block, whole: Block, key: string, more: string) {
    if more == "" then (key in start <==> key in whole) && (key in start ==> start[key] == whole[key])
    else key in whole && whole[key] == String(StringAt(start, key) + more)
  }

  const GROWING := {"text", "thinking", "signature"}

  ghost predicate SameElsewhere(start: Block, whole: Block, cut: set<string>) {
    forall key :: key !in cut ==> (key in start <==> key in whole) && (key in start ==> start[key] == whole[key])
  }

  /** The pieces of one block say what the whole block says. */
  ghost predicate Cuts(p: Piece, parse: Parse) {
    var kind, input := StringAt(p.whole, "type"), Join(p.parts, Input);
    && WellTyped(p.whole) && WellTyped(p.start)
    && (forall k :: 0 <= k < |p.lead| ==> p.lead[k].Silent?)
    && (forall k :: 0 <= k < |p.parts| ==> Belongs(p.parts[k], p.index, kind))
    && Continues(p.start, p.whole, "text", Join(p.parts, Text))
    && Continues(p.start, p.whole, "thinking", Join(p.parts, Thinking))
    && Continues(p.start, p.whole, "signature", Join(p.parts, Signature))
    && SameElsewhere(p.start, p.whole, GROWING + if input == "" then {} else {"input"})
    && (kind == "tool_use" ==> InputOf(p.whole) != map[])
    && (input != "" ==> parse(input) == Some(InputOf(p.whole)))
  }

  function EventsOf(p: Piece): seq<Event> {
    p.lead + [BlockStart(p.index, Some(Object(p.start)))] + p.parts + [BlockStop(p.index)]
  }

  function Script(pieces: seq<Piece>): seq<Event> {
    if pieces == [] then [] else Script(pieces[..|pieces| - 1]) + EventsOf(pieces[|pieces| - 1])
  }

  function Wholes(pieces: seq<Piece>): seq<Block> { seq(|pieces|, k requires 0 <= k < |pieces| => pieces[k].whole) }

  // ----- reading one piece

  /** The decoder after events that do not end the stream. */
  function After(d: Decoder, events: seq<Event>, parse: Parse): Decoder {
    if events == [] then d else
    var d1 := After(d, events[..|events| - 1], parse);
    match Step(d1, events[|events| - 1], parse)
    case GoesOn(d2) => d2
    case Ends(_) => d1
  }

  predicate Passes(e: Event) {
    match e
    case BlockStart(_, raw) => raw.Some? ==> BlockOf(raw.value).Some?
    case _ => !e.MessageStop? && !e.ErrorEvent? && !e.Undecodable?
  }

  ghost predicate AllPass(events: seq<Event>) { forall k :: 0 <= k < |events| ==> Passes(events[k]) }

  lemma {:induction false} RunPasses(d: Decoder, events: seq<Event>, rest: seq<Event>, end: End, parse: Parse)
    requires AllPass(events)
    ensures Run(d, events + rest, end, parse) == Run(After(d, events, parse), rest, end, parse)
    decreases |events|
  {
    hide Began, Stopped, Appended, WithPartial, Finished, BlockOf;
    if events == [] {
      assert events + rest == rest;
    } else {
      var n := |events| - 1;
      var later := [events[n]] + rest;
      assert events + rest == events[..n] + later;
      RunPasses(d, events[..n], later, end, parse);
      assert later[1..] == rest;
    }
  }

  lemma {:induction false} AfterAppend(d: Decoder, a: seq<Event>, b: seq<Event>, parse: Parse)
    ensures After(d, a + b, parse) == After(After(d, a, parse), b, parse)
  {
    hide Step;
    if b == [] {
      assert a + b == a;
    } else {
      assert (a + b)[..|a + b| - 1] == a + b[..|b| - 1];
      AfterAppend(d, a, b[..|b| - 1], parse);
    }
  }

  /** What the parts of one block have changed since its start. */
  ghost predicate Extends(d: Decoder, d1: Decoder, index: int, parts: seq<Event>) {
    && index in d.table.blocks && index in d1.table.blocks
    && d1.table.blocks == d.table.blocks[index := d1.table.blocks[index]]
    && Extended(d.table.blocks[index], d1.table.blocks[index], parts)
    && d1.table.toolInputs == (if Join(parts, Input) == "" then d.table.toolInputs
                               else d.table.toolInputs[index := PartialAt(d.table, index) + Join(parts, Input)])
    && d1.content == d.content + Join(parts, Text)
    && d1.boundary == d.boundary
    && DeltaText(d1.sent) == DeltaText(d.sent) + Join(parts, Text)
    && ((forall e :: e in d.sent ==> !IsTerminal(e)) ==> forall e :: e in d1.sent ==> !IsTerminal(e))
  }

  ghost predicate Extended(start: Block, b: Block, parts: seq<Event>) {
    && Continues(start, b, "text", Join(parts, Text))
    && Continues(start, b, "thinking", Join(parts, Thinking))
    && Continues(start, b, "signature", Join(parts, Signature))
    && SameElsewhere(start, b, GROWING)
  }

  lemma GrownContinues(start: Block, b: Block, key: string, more: string, value: string)
    requires Continues(start, b, key, more) && value != ""
    ensures Continues(start, Grown(b, key, value), key, more + value)
    ensures forall other :: other != key ==>
      (other in Grown(b, key, value) <==> other in b) && (other in b ==> Grown(b, key, value)[other] == b[other])
  {
    assert StringAt(b, key) == StringAt(start, key) + more;
  }

  lemma JoinAppend(parts: seq<Event>, e: Event, f: Field)
    ensures Join(parts + [e], f) == Join(parts, f) + Pick(e, f)
    ensures Pick(e, f) == "" ==> Join(parts + [e], f) == Join(parts, f)
  {
    assert (parts + [e])[..|parts|] == parts;
    assert Join(parts, f) + "" == Join(parts, f);
  }

  lemma ExtendedByPart(start: Block, b: Block, parts: seq<Event>, e: Event, key: string, value: string)
    requires Extended(start, b, parts) && value != "" && key in GROWING
    requires forall f :: f != Input ==> Pick(e, f) == if f == FieldOf(key) then value else ""
    ensures Extended(start, Grown(b, key, value), parts + [e])
  {
    hide Join, Continues;
    forall f
      ensures Join(parts + [e], f) == Join(parts, f) + Pick(e, f)
      ensures Pick(e, f) == "" ==> Join(parts + [e], f) == Join(parts, f)
    {
      JoinAppend(parts, e, f);
    }
    GrownContinues(start, b, key, Join(parts, FieldOf(key)), value);
    var b' := Grown(b, key, value);
    forall other, more | other != key && Continues(start, b, other, more)
      ensures Continues(start, b', other, more)
    {
      ContinuesElsewhere(start, b, b', other, more);
    }
  }

  lemma ContinuesElsewhere(start: Block, b: Block, b': Block, key: string, more: string)
    requires Continues(start, b, key, more)
    requires (key in b' <==> key in b) && (key in b ==> b'[key] == b[key])
    ensures Continues(start, b', key, more)
  {
  }

  function FieldOf(key: string): Field
    requires key in GROWING
  {
    if key == "text" then Text else if key == "thinking" then Thinking else Signature
  }

  lemma TypeStays(start: Block, b: Block, parts: seq<Event>)
    requires Extended(start, b, parts)
    ensures StringAt(b, "type") == StringAt(start, "type")
  {
    hide Continues, Join;
    assert "type" !in GROWING;
  }

  lemma AppendedBlock(t: Table, index: int, kind: string, key: string, value: string)
    requires index in t.blocks && StringAt(t.blocks[index], "type") == kind && kind != "" && value != ""
    ensures Appended(t, index, kind, key, value) == t.(blocks := t.blocks[index := Grown(t.blocks[index], key, value)])
  {
    var b := t.blocks[index];
    assert Typed(b, kind) == b;
    assert t.blocks[index := b] == t.blocks;
  }

  lemma TextExtends(d: Decoder, d1: Decoder, index: int, parts: seq<Event>, e: Event, parse: Parse)
    requires Extends(d, d1, index, parts) && Belongs(e, index, StringAt(d.table.blocks[index], "type"))
    requires e.TextPart? || e.ThinkingPart?
    ensures Step(d1, e, parse).GoesOn? && Extends(d, Step(d1, e, parse).d, index, parts + [e])
  {
    hide Join, Extended, Appended, Grown, DeltaText, PartialAt, WithPartial;
    JoinAppend(parts, e, Text);
    JoinAppend(parts, e, Input);
    var start, b := d.table.blocks[index], d1.table.blocks[index];
    TypeStays(start, b, parts);
    if Pick(e, Text) == "" == Pick(e, Thinking) {
      SilentExtends(start, b, parts, e);
    } else if e.TextPart? {
      AppendedBlock(d1.table, index, "text", "text", e.text);
      ExtendedByPart(start, b, parts, e, "text", e.text);
      DeltaTextAppend(d1.sent, TextDelta(e.text));
    } else {
      AppendedBlock(d1.table, index, "thinking", "thinking", e.thinking);
      ExtendedByPart(start, b, parts, e, "thinking", e.thinking);
      DeltaTextAppend(d1.sent, ThinkingDelta(e.thinking));
    }
  }

  lemma PartExtends(d: Decoder, d1: Decoder, index: int, parts: seq<Event>, e: Event, parse: Parse)
    requires index in d.table.blocks
    requires Extends(d, d1, index, parts) && Belongs(e, index, StringAt(d.table.blocks[index], "type"))
    ensures Step(d1, e, parse).GoesOn? && Extends(d, Step(d1, e, parse).d, index, parts + [e])
  {
    hide Extends, Step, Belongs;
    if e.TextPart? || e.ThinkingPart? {
      TextExtends(d, d1, index, parts, e, parse);
    } else {
      OtherExtends(d, d1, index, parts, e, parse);
    }
  }

  lemma OtherExtends(d: Decoder, d1: Decoder, index: int, parts: seq<Event>, e: Event, parse: Parse)
    requires Extends(d, d1, index, parts) && Belongs(e, index, StringAt(d.table.blocks[index], "type"))
    requires !e.TextPart? && !e.ThinkingPart?
    ensures Step(d1, e, parse).GoesOn? && Extends(d, Step(d1, e, parse).d, index, parts + [e])
  {
    hide Join, Extended, Appended, Grown, DeltaText, PartialAt, WithPartial;
    JoinAppend(parts, e, Text);
    JoinAppend(parts, e, Input);
    var start, b := d.table.blocks[index], d1.table.blocks[index];
    TypeStays(start, b, parts);
    if e.SignaturePart? && e.signature != "" {
      AppendedBlock(d1.table, index, "thinking", "signature", e.signature);
      ExtendedByPart(start, b, parts, e, "signature", e.signature);
    } else {
      SilentExtends(start, b, parts, e);
      if e.SignaturePart? {
        EmptyAppends(d1.table, index, "thinking", "signature");
      } else if e.InputPart? {
        InputExtends(d.table, d1.table, index, Join(parts, Input), e.partial);
      }
    }
  }

  lemma InputExtends(t: Table, t1: Table, index: int, input: string, partial: string)
    requires t1.toolInputs == if input == "" then t.toolInputs else t.toolInputs[index := PartialAt(t, index) + input]
    ensures var t2 := WithPartial(t1, index, partial);
      && t2.blocks == t1.blocks
      && t2.toolInputs == if input + partial == "" then t.toolInputs else t.toolInputs[index := PartialAt(t, index) + (input + partial)]
  {
    assert PartialAt(t, index) + input + partial == PartialAt(t, index) + (input + partial);
    assert input + "" == input && "" + partial == partial;
  }

  lemma EmptyAppends(t: Table, index: int, kind: string, key: string)
    ensures Appended(t, index, kind, key, "") == t
  {
  }

  lemma SilentExtends(start: Block, b: Block, parts: seq<Event>, e: Event)
    requires Extended(start, b, parts) && forall f :: f != Input ==> Pick(e, f) == ""
    ensures Extended(start, b, parts + [e])
  {
    hide Join, Continues;
    JoinAppend(parts, e, Text);
    JoinAppend(parts, e, Thinking);
    JoinAppend(parts, e, Signature);
  }

  lemma NoPartsExtend(d: Decoder, index: int)
    requires index in d.table.blocks
    ensures Extends(d, d, index, [])
  {
    assert d.table.blocks[index := d.table.blocks[index]] == d.table.blocks;
  }

  lemma {:induction false} PartsExtend(d: Decoder, index: int, parts: seq<Event>, parse: Parse)
    requires index in d.table.blocks
    requires forall k :: 0 <= k < |parts| ==> Belongs(parts[k], index, StringAt(d.table.blocks[index], "type"))
    ensures Extends(d, After(d, parts, parse), index, parts)
  {
    hide Extends, Step, Belongs;
    if parts == [] {
      NoPartsExtend(d, index);
    } else {
      var n := |parts| - 1;
      PartsExtend(d, index, parts[..n], parse);
      PartExtends(d, After(d, parts[..n], parse), index, parts[..n], parts[n], parse);
      assert parts[..n] + [parts[n]] == parts;
    }
  }

  // ----- a piece leaves its block behind

  /** The table holds this piece's block: as it is or, for a tool, up to its input. */
  ghost predicate Holds(t: Table, p: Piece, parse: Parse) {
    && p.index in t.blocks
    && var b := t.blocks[p.index];
    if IsTool(p.whole) then
      && b["input" := Object(InputOf(p.whole))] == p.whole
      && ToolInput(b, PartialAt(t, p.index), parse) == Some(InputOf(p.whole))
    else b == p.whole
  }

  lemma SameBlock(a: Block, b: Block)
    requires forall key :: (key in a <==> key in b) && (key in a ==> a[key] == b[key])
    ensures a == b
  {
  }

  lemma ContinuesOneWay(start: Block, a: Block, b: Block, key: string, more: string)
    requires Continues(start, a, key, more) && Continues(start, b, key, more)
    ensures (key in a <==> key in b) && (key in a ==> a[key] == b[key])
  {
  }

  /** The parts determine every key of the block but a tool's input. */
  lemma PartsDetermine(p: Piece, b: Block, parse: Parse)
    requires Cuts(p, parse) && Extended(p.start, b, p.parts)
    ensures forall key :: key != "input" ==> (key in b <==> key in p.whole) && (key in b ==> b[key] == p.whole[key])
    ensures Join(p.parts, Input) == "" ==> b == p.whole
    ensures ("input" in b <==> "input" in p.start) && ("input" in b ==> b["input"] == p.start["input"])
  {
    hide Continues, Join;
    ContinuesOneWay(p.start, b, p.whole, "text", Join(p.parts, Text));
    ContinuesOneWay(p.start, b, p.whole, "thinking", Join(p.parts, Thinking));
    ContinuesOneWay(p.start, b, p.whole, "signature", Join(p.parts, Signature));
    forall key | key !in GROWING && key != "input"
      ensures (key in b <==> key in p.whole) && (key in b ==> b[key] == p.whole[key])
    {
      assert key in b <==> key in p.start;
    }
    assert "input" !in GROWING;
    if Join(p.parts, Input) == "" {
      SameBlock(b, p.whole);
    }
  }

  lemma {:induction false} OnlyToolsTakeInput(parts: seq<Event>, index: int, kind: string)
    requires forall k :: 0 <= k < |parts| ==> Belongs(parts[k], index, kind)
    ensures kind != "tool_use" ==> Join(parts, Input) == ""
    ensures kind != "text" ==> Join(parts, Text) == ""
    ensures AllPass(parts)
  {
    if parts != [] {
      OnlyToolsTakeInput(parts[..|parts| - 1], index, kind);
    }
  }

  lemma BlockIsHeld(t: Table, p: Piece, parse: Parse)
    requires Cuts(p, parse) && p.index in t.blocks && Extended(p.start, t.blocks[p.index], p.parts)
    requires PartialAt(t, p.index) == Join(p.parts, Input)
    ensures Holds(t, p, parse)
  {
    hide Extended, Join, Continues, Belongs;
    var b := t.blocks[p.index];
    PartsDetermine(p, b, parse);
    OnlyToolsTakeInput(p.parts, p.index, StringAt(p.whole, "type"));
    if IsTool(p.whole) {
      assert "input" in p.whole && p.whole["input"] == Object(InputOf(p.whole));
      SameBlock(b["input" := Object(InputOf(p.whole))], p.whole);
    }
  }

  /** Everything one piece changes. */
  ghost predicate Reads(d: Decoder, d1: Decoder, p: Piece, parse: Parse) {
    && d1.content == d.content + TextOf(p.whole)
    && DeltaText(d1.sent) == DeltaText(d.sent) + TextOf(p.whole)
    && ((forall e :: e in d.sent ==> !IsTerminal(e)) ==> forall e :: e in d1.sent ==> !IsTerminal(e))
    && d1.boundary == d.boundary + BoundaryOf(p)
    && d1.table.blocks.Keys == d.table.blocks.Keys + {p.index}
    && (forall i :: i != p.index ==> SameAt(d.table, d1.table, i))
    && Holds(d1.table, p, parse)
  }

  ghost predicate SameAt(t: Table, t1: Table, index: int) {
    && (index in t.blocks <==> index in t1.blocks)
    && (index in t.blocks ==> t.blocks[index] == t1.blocks[index])
    && (index in t.toolInputs <==> index in t1.toolInputs)
    && PartialAt(t, index) == PartialAt(t1, index)
  }

  function BoundaryOf(p: Piece): seq<StreamEvent> {
    var id, name := StringAt(p.whole, "id"), StringAt(p.whole, "name");
    if IsTool(p.whole) then [ToolCallStart(p.index, id, name), ToolCallDone(p.index, id, name)] else []
  }

  lemma {:induction false} SilentKeeps(d: Decoder, events: seq<Event>, parse: Parse)
    requires forall k :: 0 <= k < |events| ==> events[k].Silent?
    ensures After(d, events, parse) == d
  {
    if events != [] {
      SilentKeeps(d, events[..|events| - 1], parse);
    }
  }

  lemma StartText(p: Piece, parse: Parse)
    requires Cuts(p, parse)
    ensures TextOf(p.start) + Join(p.parts, Text) == TextOf(p.whole)
    ensures IsTool(p.start) == IsTool(p.whole)
    ensures StringAt(p.start, "type") == StringAt(p.whole, "type")
    ensures StringAt(p.start, "id") == StringAt(p.whole, "id") && StringAt(p.start, "name") == StringAt(p.whole, "name")
  {
    hide Join, Belongs;
    OnlyToolsTakeInput(p.parts, p.index, StringAt(p.whole, "type"));
    assert "type" !in GROWING && "id" !in GROWING && "name" !in GROWING;
    if StringAt(p.whole, "type") == "text" {
      assert StringAt(p.start, "text") + "" == StringAt(p.start, "text");
      assert StringAt(p.start, "text") + Join(p.parts, Text) == StringAt(p.whole, "text");
    }
  }

  lemma BeganReads(d: Decoder, p: Piece, parse: Parse)
    requires Cuts(p, parse) && p.start != map[]
    ensures var d1 := Began(d, p.index, p.start);
      && d1.content == d.content + TextOf(p.start)
      && DeltaText(d1.sent) == DeltaText(d.sent) + TextOf(p.start)
      && ((forall e :: e in d.sent ==> !IsTerminal(e)) ==> forall e :: e in d1.sent ==> !IsTerminal(e))
      && d1.boundary == d.boundary + BoundaryOf(p)[..|BoundaryOf(p)| / 2]
      && d1.table == d.table.(blocks := d.table.blocks[p.index := p.start])
  {
    hide DeltaText, Cuts;
    CutStarts(p, parse);
    StartText(p, parse);
    DeltaTextAppend(d.sent, TextDelta(TextOf(p.start)));
    DeltaTextAppend(d.sent, ThinkingDelta(StringAt(p.start, "thinking")));
    assert DeltaText(d.sent) + "" == DeltaText(d.sent);
    assert d.boundary + [] == d.boundary;
  }

  lemma CutStarts(p: Piece, parse: Parse)
    requires Cuts(p, parse)
    ensures WellTyped(p.start)
  {
  }

  lemma PieceReads(d: Decoder, p: Piece, parse: Parse)
    requires Cuts(p, parse) && p.start != map[] && p.index !in d.table.blocks && p.index !in d.table.toolInputs
    ensures Reads(d, After(d, EventsOf(p), parse), p, parse)
  {
    hide Cuts, Join, DeltaText, BoundaryOf, Began, Extended, TextOf, Holds, Stopped, SameAt, After;
    var d1 := Began(d, p.index, p.start);
    var d2 := After(d1, p.parts, parse);
    PieceSteps(d, p, parse);
    BeganReads(d, p, parse);
    StartText(p, parse);
    PartsBelong(p, parse);
    PartsExtend(d1, p.index, p.parts, parse);
    var text, more := TextOf(p.start), Join(p.parts, Text);
    assert d.content + text + more == d.content + (text + more);
    assert DeltaText(d.sent) + text + more == DeltaText(d.sent) + (text + more);
    PieceTable(d, d2, p, parse);
    StoppedBoundary(d, d2, p, parse);
  }

  lemma PieceTable(d: Decoder, d2: Decoder, p: Piece, parse: Parse)
    requires Cuts(p, parse) && p.index !in d.table.blocks && p.index !in d.table.toolInputs
    requires p.index in d2.table.blocks && Extended(p.start, d2.table.blocks[p.index], p.parts)
    requires d2.table.blocks == d.table.blocks[p.index := p.start][p.index := d2.table.blocks[p.index]]
    requires var input := Join(p.parts, Input);
      d2.table.toolInputs == if input == "" then d.table.toolInputs else d.table.toolInputs[p.index := "" + input]
    ensures Holds(d2.table, p, parse) && d2.table.blocks.Keys == d.table.blocks.Keys + {p.index}
    ensures forall i :: i != p.index ==> SameAt(d.table, d2.table, i)
  {
    hide Cuts, Join, Extended, Holds;
    assert "" + Join(p.parts, Input) == Join(p.parts, Input);
    BlockIsHeld(d2.table, p, parse);
  }

  lemma PartsBelong(p: Piece, parse: Parse)
    requires Cuts(p, parse)
    ensures forall k :: 0 <= k < |p.parts| ==> Belongs(p.parts[k], p.index, StringAt(p.start, "type"))
  {
    StartText(p, parse);
  }

  lemma AfterOne(d: Decoder, e: Event, parse: Parse)
    ensures After(d, [e], parse) == if Step(d, e, parse).GoesOn? then Step(d, e, parse).d else d
  {
    assert [e][..0] == [];
  }

  lemma StepStart(d: Decoder, p: Piece, parse: Parse)
    requires WellTyped(p.start)
    ensures Step(d, BlockStart(p.index, Some(Object(p.start))), parse) == GoesOn(Began(d, p.index, p.start))
    ensures Passes(BlockStart(p.index, Some(Object(p.start))))
  {
  }

  lemma PieceSteps(d: Decoder, p: Piece, parse: Parse)
    requires Cuts(p, parse)
    ensures After(d, EventsOf(p), parse) == Stopped(After(Began(d, p.index, p.start), p.parts, parse), p.index)
  {
    hide Began, Stopped, After, Step, Cuts, WellTyped;
    var first, last := BlockStart(p.index, Some(Object(p.start))), BlockStop(p.index);
    CutStarts(p, parse);
    LeadIsSilent(p, parse);
    StepStart(d, p, parse);
    SilentKeeps(d, p.lead, parse);
    AfterAppend(d, p.lead, [first], parse);
    AfterOne(d, first, parse);
    AfterAppend(d, p.lead + [first], p.parts, parse);
    AfterAppend(d, p.lead + [first] + p.parts, [last], parse);
    var d2 := After(Began(d, p.index, p.start), p.parts, parse);
    AfterOne(d2, last, parse);
    StepStop(d2, p.index, parse);
  }

  lemma StepStop(d: Decoder, index: int, parse: Parse)
    ensures Step(d, BlockStop(index), parse) == GoesOn(Stopped(d, index))
  {
  }

  lemma LeadIsSilent(p: Piece, parse: Parse)
    requires Cuts(p, parse)
    ensures forall k :: 0 <= k < |p.lead| ==> p.lead[k].Silent?
  {
  }

  /** Only a block without any key starts without any key. */
  lemma EmptyTogether(p: Piece, parse: Parse)
    requires Cuts(p, parse)
    ensures p.start == map[] <==> p.whole == map[]
    ensures p.start == map[] ==> forall k :: 0 <= k < |p.parts| ==> p.parts[k].Silent?
  {
    assert "type" !in GROWING;
    if p.start == map[] || p.whole == map[] {
      assert StringAt(p.whole, "type") == "" by {
        hide Continues, Join, Belongs;
      }
      AllSilent(p.parts, p.index);
      hide Join, Belongs;
      assert Extended(p.start, p.start, p.parts);
      PartsDetermine(p, p.start, parse);
    }
  }

  lemma {:induction false} AllSilent(parts: seq<Event>, index: int)
    requires forall k :: 0 <= k < |parts| ==> Belongs(parts[k], index, "")
    ensures forall k :: 0 <= k < |parts| ==> parts[k].Silent?
    ensures forall f :: Join(parts, f) == ""
  {
    if parts != [] {
      AllSilent(parts[..|parts| - 1], index);
      assert parts[|parts| - 1].Silent?;
    }
  }

  /** The events of a block without any key change nothing. */
  lemma EmptyPieceKeeps(d: Decoder, p: Piece, parse: Parse)
    requires Cuts(p, parse) && p.start == map[] && p.index !in d.table.blocks
    ensures After(d, EventsOf(p), parse) == d
  {
    hide Cuts, After;
    PieceSteps(d, p, parse);
    EmptyTogether(p, parse);
    assert Began(d, p.index, map[]) == d by {
      assert d.content + "" == d.content;
    }
    SilentKeeps(d, p.parts, parse);
  }

  lemma PassTogether(a: seq<Event>, b: seq<Event>)
    requires AllPass(a) && AllPass(b)
    ensures AllPass(a + b)
  {
    hide Passes;
  }

  lemma SilentPass(events: seq<Event>)
    requires forall k :: 0 <= k < |events| ==> events[k].Silent?
    ensures AllPass(events)
  {
  }

  lemma StopPasses(index: int)
    ensures AllPass([BlockStop(index)])
  {
  }

  lemma PiecePasses(p: Piece, parse: Parse)
    requires Cuts(p, parse)
    ensures AllPass(EventsOf(p))
  {
    CutStarts(p, parse);
    LeadIsSilent(p, parse);
    StepStart(START, p, parse);
    PartsBelong(p, parse);
    hide Cuts, WellTyped, Passes, Belongs, Join, Step;
    OnlyToolsTakeInput(p.parts, p.index, StringAt(p.start, "type"));
    SilentPass(p.lead);
    StopPasses(p.index);
    var first := [BlockStart(p.index, Some(Object(p.start)))];
    assert AllPass(first) && AllPass(p.parts);
    hide AllPass;
    PassTogether(p.lead, first);
    PassTogether(p.lead + first, p.parts);
    PassTogether(p.lead + first + p.parts, [BlockStop(p.index)]);
  }

  // ----- the whole script

  function Boundary(pieces: seq<Piece>): seq<StreamEvent> {
    if pieces == [] then [] else Boundary(pieces[..|pieces| - 1]) + BoundaryOf(pieces[|pieces| - 1])
  }

  function Tools(pieces: seq<Piece>): set<int> {
    if pieces == [] then {} else
    var p := pieces[|pieces| - 1];
    Tools(pieces[..|pieces| - 1]) + if IsTool(p.whole) then {p.index} else {}
  }

  function Indexes(pieces: seq<Piece>): seq<int> { seq(|pieces|, k requires 0 <= k < |pieces| => pieces[k].index) }

  /** Every block is cut faithfully, and blocks come in index order. */
  ghost predicate Faithful(pieces: seq<Piece>, parse: Parse) {
    pieces == [] || (
      && Faithful(pieces[..|pieces| - 1], parse)
      && Cuts(pieces[|pieces| - 1], parse)
      && LastIsLatest(pieces))
  }

  ghost predicate LastIsLatest(pieces: seq<Piece>) {
    pieces != [] ==> forall k :: 0 <= k < |pieces| - 1 ==> pieces[k].index < pieces[|pieces| - 1].index
  }

  lemma {:induction false} EachIsCut(pieces: seq<Piece>, parse: Parse, k: nat)
    requires Faithful(pieces, parse) && k < |pieces|
    ensures Cuts(pieces[k], parse)
  {
    if k < |pieces| - 1 {
      EachIsCut(pieces[..|pieces| - 1], parse, k);
    }
  }

  lemma {:induction false} FaithfulAscends(pieces: seq<Piece>, parse: Parse)
    requires Faithful(pieces, parse)
    ensures IsAscending(Indexes(pieces))
  {
    if pieces != [] {
      hide Cuts, IsAscending;
      var n := |pieces| - 1;
      FaithfulAscends(pieces[..n], parse);
      IndexesAscend(pieces);
    }
  }

  lemma IndexesAscend(pieces: seq<Piece>)
    requires pieces != [] && LastIsLatest(pieces) && IsAscending(Indexes(pieces[..|pieces| - 1]))
    ensures IsAscending(Indexes(pieces))
  {
    var n := |pieces| - 1;
    var before := Indexes(pieces[..n]);
    assert forall k :: 0 <= k < n ==> before[k] == Indexes(pieces)[k] == pieces[k].index;
  }

  // ----- blocks without any key

  /** The pieces whose blocks have a key. */
  function Kept(pieces: seq<Piece>): seq<Piece> {
    if pieces == [] then [] else
    var p := pieces[|pieces| - 1];
    Kept(pieces[..|pieces| - 1]) + if p.whole == map[] then [] else [p]
  }

  lemma {:induction false} KeptBelow(pieces: seq<Piece>, bound: int)
    requires forall k :: 0 <= k < |pieces| ==> pieces[k].index < bound
    ensures forall k :: 0 <= k < |Kept(pieces)| ==> Kept(pieces)[k].index < bound
  {
    if pieces != [] {
      KeptBelow(pieces[..|pieces| - 1], bound);
    }
  }

  lemma {:induction false} KeptIsFaithful(pieces: seq<Piece>, parse: Parse)
    requires Faithful(pieces, parse)
    ensures Faithful(Kept(pieces), parse)
  {
    if pieces != [] {
      hide Cuts;
      var n := |pieces| - 1;
      KeptIsFaithful(pieces[..n], parse);
      KeptBelow(pieces[..n], pieces[n].index);
      hide Faithful, LastIsLatest;
      KeptByLast(pieces);
      if pieces[n].whole != map[] {
        LatestAppends(Kept(pieces[..n]), pieces[n]);
        FaithfulAppends(Kept(pieces[..n]), pieces[n], parse);
      }
    }
  }

  lemma KeptByLast(pieces: seq<Piece>)
    requires pieces != []
    ensures var p, before := pieces[|pieces| - 1], Kept(pieces[..|pieces| - 1]);
      Kept(pieces) == if p.whole == map[] then before else before + [p]
  {
  }

  lemma LatestAppends(pieces: seq<Piece>, p: Piece)
    requires forall k :: 0 <= k < |pieces| ==> pieces[k].index < p.index
    ensures LastIsLatest(pieces + [p])
  {
  }

  lemma FaithfulAppends(pieces: seq<Piece>, p: Piece, parse: Parse)
    requires Faithful(pieces, parse) && Cuts(p, parse) && LastIsLatest(pieces + [p])
    ensures Faithful(pieces + [p], parse)
  {
    hide Cuts, LastIsLatest;
    assert (pieces + [p])[..|pieces|] == pieces;
  }

  lemma EmptySaysNothing(p: Piece)
    ensures TextOf(map[]) == "" && CallOf(map[]) == [] && (p.whole == map[] ==> BoundaryOf(p) == [] && !IsTool(p.whole))
  {
  }

  lemma SaidByLast(pieces: seq<Piece>, p: Piece)
    ensures Texts(Wholes(pieces + [p])) == Texts(Wholes(pieces)) + TextOf(p.whole)
    ensures Calls(Wholes(pieces + [p])) == Calls(Wholes(pieces)) + CallOf(p.whole)
    ensures Boundary(pieces + [p]) == Boundary(pieces) + BoundaryOf(p)
    ensures Tools(pieces + [p]) == Tools(pieces) + if IsTool(p.whole) then {p.index} else {}
  {
    hide TextOf, CallOf, BoundaryOf, IsTool;
    var all := pieces + [p];
    assert all[..|pieces|] == pieces && Wholes(all)[..|pieces|] == Wholes(pieces);
  }

  /** What is dropped carries no text, no tool call and no boundary event. */
  lemma {:induction false} KeptSaysTheSame(pieces: seq<Piece>)
    ensures Texts(Wholes(Kept(pieces))) == Texts(Wholes(pieces))
    ensures Calls(Wholes(Kept(pieces))) == Calls(Wholes(pieces))
    ensures Boundary(Kept(pieces)) == Boundary(pieces) && Tools(Kept(pieces)) == Tools(pieces)
  {
    hide TextOf, CallOf, BoundaryOf, IsTool, Texts, Calls, Boundary, Tools, Wholes;
    if pieces != [] {
      var n := |pieces| - 1;
      KeptSaysTheSame(pieces[..n]);
      EmptySaysNothing(pieces[n]);
      SaidByLast(pieces[..n], pieces[n]);
      SaidByLast(Kept(pieces[..n]), pieces[n]);
      assert pieces[..n] + [pieces[n]] == pieces;
      var kept := Kept(pieces[..n]);
      if pieces[n].whole == map[] {
        assert kept + [] == kept && Texts(Wholes(kept)) + "" == Texts(Wholes(kept));
        assert Calls(Wholes(kept)) + [] == Calls(Wholes(kept)) && Boundary(kept) + [] == Boundary(kept);
        assert Tools(kept) + {} == Tools(kept);
      }
    }
  }

  lemma {:induction false} KeptIsShorter(pieces: seq<Piece>)
    ensures |Kept(pieces)| <= |pieces|
    ensures |Kept(pieces)| == |pieces| <==> forall k :: 0 <= k < |pieces| ==> pieces[k].whole != map[]
    ensures |Kept(pieces)| == |pieces| ==> Kept(pieces) == pieces
  {
    if pieces != [] {
      KeptIsShorter(pieces[..|pieces| - 1]);
    }
  }

  lemma MetadataCounts(a: seq<Block>, b: seq<Block>)
    requires |a| != |b|
    ensures Metadata(a) != Metadata(b)
  {
    if a != [] && b != [] {
      assert |Metadata(a)[CONTENT_KEY].items| == |a| && |Metadata(b)[CONTENT_KEY].items| == |b|;
    } else {
      assert CONTENT_KEY in Metadata(a) <==> a != [];
      assert CONTENT_KEY in Metadata(b) <==> b != [];
    }
  }

  /** The decoder's state says what the pieces so far say. */
  ghost predicate Mirrors(d: Decoder, pieces: seq<Piece>, parse: Parse) {
    && d.content == DeltaText(d.sent) == Texts(Wholes(pieces))
    && (forall e :: e in d.sent ==> !IsTerminal(e))
    && d.boundary == Boundary(pieces)
    && (forall i :: i in d.table.blocks <==> i in Indexes(pieces))
    && (forall i :: i in d.table.toolInputs ==> i in Indexes(pieces))
    && forall k :: 0 <= k < |pieces| ==> Holds(d.table, pieces[k], parse)
  }

  lemma {:induction false} ScriptMirrors(pieces: seq<Piece>, parse: Parse)
    requires Faithful(pieces, parse)
    ensures Mirrors(After(START, Script(pieces), parse), Kept(pieces), parse)
    ensures AllPass(Script(pieces))
  {
    if pieces == [] {
    } else {
      hide Cuts, Mirrors, After, AllPass, Reads;
      var n := |pieces| - 1;
      ScriptMirrors(pieces[..n], parse);
      PiecePasses(pieces[n], parse);
      PassTogether(Script(pieces[..n]), EventsOf(pieces[n]));
      AfterAppend(START, Script(pieces[..n]), EventsOf(pieces[n]), parse);
      var d := After(START, Script(pieces[..n]), parse);
      var kept := Kept(pieces[..n]);
      var all := kept + [pieces[n]];
      assert all[..|kept|] == kept && kept + [] == kept;
      KeptBelow(pieces[..n], pieces[n].index);
      IndexIsNew(d, all, parse);
      EmptyTogether(pieces[n], parse);
      if pieces[n].start == map[] {
        EmptyPieceKeeps(d, pieces[n], parse);
      } else {
        PieceReads(d, pieces[n], parse);
        PieceMirrors(d, After(d, EventsOf(pieces[n]), parse), all, parse);
      }
    }
  }

  lemma IndexIsNew(d: Decoder, pieces: seq<Piece>, parse: Parse)
    requires pieces != [] && LastIsLatest(pieces) && Mirrors(d, pieces[..|pieces| - 1], parse)
    ensures var index := pieces[|pieces| - 1].index; index !in d.table.blocks && index !in d.table.toolInputs
  {
    hide Holds;
    var before := Indexes(pieces[..|pieces| - 1]);
    assert forall k :: 0 <= k < |before| ==> before[k] == pieces[k].index;
  }

  lemma PieceMirrors(d: Decoder, d1: Decoder, pieces: seq<Piece>, parse: Parse)
    requires pieces != [] && LastIsLatest(pieces) && Mirrors(d, pieces[..|pieces| - 1], parse)
    requires Reads(d, d1, pieces[|pieces| - 1], parse)
    ensures Mirrors(d1, pieces, parse)
  {
    hide Holds, BoundaryOf, TextOf, DeltaText;
    var n, before := |pieces| - 1, pieces[..|pieces| - 1];
    assert Wholes(pieces)[..n] == Wholes(before);
    assert Indexes(pieces) == Indexes(before) + [pieces[n].index];
    forall k | 0 <= k < n
      ensures Holds(d1.table, pieces[k], parse)
    {
      assert before[k] == pieces[k] && SameAt(d.table, d1.table, pieces[k].index);
      HoldsStays(d.table, d1.table, pieces[k], parse);
    }
    forall i | i in d1.table.toolInputs
      ensures i in Indexes(pieces)
    {
      if i != pieces[n].index {
        assert SameAt(d.table, d1.table, i);
      }
    }
  }

  lemma HoldsStays(t: Table, t1: Table, p: Piece, parse: Parse)
    requires Holds(t, p, parse) && SameAt(t, t1, p.index)
    ensures Holds(t1, p, parse)
  {
  }

  lemma {:induction false} BoundaryBrackets(pieces: seq<Piece>)
    requires IsAscending(Indexes(pieces))
    ensures Bracketed(Boundary(pieces), Tools(pieces), Tools(pieces))
    ensures forall i :: i in Tools(pieces) ==> i in Indexes(pieces)
  {
    hide Bracketed, IsTool, BoundaryOf;
    if pieces == [] {
      NothingIsBracketed();
    } else {
      var n := |pieces| - 1;
      LastIsNew(pieces);
      BoundaryBrackets(pieces[..n]);
      PieceBrackets(Boundary(pieces[..n]), Tools(pieces[..n]), pieces[n]);
      forall i | i in Tools(pieces)
        ensures i in Indexes(pieces)
      {
        assert i in Tools(pieces[..n]) || i == pieces[n].index;
        assert i in Indexes(pieces[..n]) || i == pieces[n].index;
      }
    }
  }

  lemma NothingIsBracketed()
    ensures Bracketed([], {}, {})
  {
  }

  lemma LastIsNew(pieces: seq<Piece>)
    requires pieces != [] && IsAscending(Indexes(pieces))
    ensures var n := |pieces| - 1;
      && IsAscending(Indexes(pieces[..n]))
      && Indexes(pieces) == Indexes(pieces[..n]) + [pieces[n].index]
      && pieces[n].index !in Indexes(pieces[..n])
  {
    var n := |pieces| - 1;
    var before := Indexes(pieces[..n]);
    assert Indexes(pieces) == before + [pieces[n].index];
    assert forall k :: 0 <= k < n ==> before[k] == Indexes(pieces)[k] < Indexes(pieces)[n];
  }

  lemma PieceBrackets(b: seq<StreamEvent>, tools: set<int>, p: Piece)
    requires Bracketed(b, tools, tools) && p.index !in tools
    ensures var all := tools + if IsTool(p.whole) then {p.index} else {}; Bracketed(b + BoundaryOf(p), all, all)
  {
    hide Bracketed;
    if IsTool(p.whole) {
      var first, last := BoundaryOf(p)[0], BoundaryOf(p)[1];
      BracketGrows(b, first, tools, tools);
      BracketGrows(b + [first], last, tools + {p.index}, tools);
      assert b + [first] + [last] == b + BoundaryOf(p);
    } else {
      assert b + [] == b && tools + {} == tools;
    }
  }

  // ----- finishing

  /** The first n pieces have their inputs filled in, the rest are as they were. */
  ghost predicate Filled(t: Table, t1: Table, pieces: seq<Piece>, n: nat) {
    && t1.toolInputs == t.toolInputs && t1.blocks.Keys == t.blocks.Keys
    && forall k :: 0 <= k < |pieces| ==>
      pieces[k].index in t.blocks && t1.blocks[pieces[k].index] == if k < n then pieces[k].whole else t.blocks[pieces[k].index]
  }

  lemma {:induction false} ResolveIsWhole(t: Table, pieces: seq<Piece>, n: nat, parse: Parse)
    requires n <= |pieces| && IsAscending(Indexes(pieces))
    requires forall k :: 0 <= k < |pieces| ==> Holds(t, pieces[k], parse)
    ensures var (t1, calls) := Resolve(t, Indexes(pieces), n, parse);
      calls == Some(Calls(Wholes(pieces)[..n])) && Filled(t, t1, pieces, n)
  {
    hide FilledOne;
    if n > 0 {
      ResolveIsWhole(t, pieces, n - 1, parse);
      FillOne(t, Resolve(t, Indexes(pieces), n - 1, parse).0, pieces, n, parse);
      ResolveStep(t, pieces, n, parse);
    } else {
      hide ToolInput;
    }
  }

  lemma ResolveStep(t: Table, pieces: seq<Piece>, n: nat, parse: Parse)
    requires 0 < n <= |pieces|
    requires var (t1, calls) := Resolve(t, Indexes(pieces), n - 1, parse);
      calls == Some(Calls(Wholes(pieces)[..n - 1])) && Filled(t, t1, pieces, n - 1)
    requires FilledOne(t, Resolve(t, Indexes(pieces), n - 1, parse).0, pieces, n, parse)
    ensures var (t1, calls) := Resolve(t, Indexes(pieces), n, parse);
      calls == Some(Calls(Wholes(pieces)[..n])) && Filled(t, t1, pieces, n)
  {
    hide Filled, ToolInput, StringAt, IsTool, InputOf;
    var wholes := Wholes(pieces);
    assert wholes[..n][..n - 1] == wholes[..n - 1] && wholes[..n][n - 1] == pieces[n - 1].whole;
    var calls := Calls(wholes[..n - 1]);
    assert Calls(wholes[..n]) == calls + CallOf(pieces[n - 1].whole);
    assert calls + [] == calls;
  }

  /** Filling in the n-th piece's block, or finding it complete. */
  ghost predicate FilledOne(t: Table, t1: Table, pieces: seq<Piece>, n: nat, parse: Parse)
    requires 0 < n <= |pieces|
  {
    var p := pieces[n - 1];
    && p.index in t1.blocks
    && var b, input := t1.blocks[p.index], InputOf(p.whole);
    && IsTool(b) == IsTool(p.whole)
    && (!IsTool(b) ==> Filled(t, t1, pieces, n))
    && (IsTool(b) ==>
      && ToolInput(b, PartialAt(t1, p.index), parse) == Some(input)
      && [ToolCall(StringAt(b, "id"), StringAt(b, "name"), input)] == CallOf(p.whole)
      && Filled(t, t1.(blocks := t1.blocks[p.index := b["input" := Object(input)]]), pieces, n))
  }

  lemma FillOne(t: Table, t1: Table, pieces: seq<Piece>, n: nat, parse: Parse)
    requires 0 < n <= |pieces| && IsAscending(Indexes(pieces)) && Filled(t, t1, pieces, n - 1)
    requires Holds(t, pieces[n - 1], parse)
    ensures FilledOne(t, t1, pieces, n, parse)
  {
    hide ToolInput;
    var p := pieces[n - 1];
    HeldCall(t, p, parse);
    assert forall k :: 0 <= k < |pieces| ==> Indexes(pieces)[k] == pieces[k].index;
    forall k | 0 <= k < |pieces| && k != n - 1
      ensures pieces[k].index != p.index
    {
      assert Indexes(pieces)[k] != Indexes(pieces)[n - 1];
    }
    hide Indexes, CallOf;
    assert t1.blocks[p.index] == t.blocks[p.index];
  }

  lemma HeldCall(t: Table, p: Piece, parse: Parse)
    requires Holds(t, p, parse)
    ensures var b := t.blocks[p.index];
      && IsTool(b) == IsTool(p.whole)
      && StringAt(b, "id") == StringAt(p.whole, "id") && StringAt(b, "name") == StringAt(p.whole, "name")
  {
    var b := t.blocks[p.index];
    if IsTool(p.whole) {
      assert forall key :: key != "input" ==> StringAt(b, key) == StringAt(b["input" := Object(InputOf(p.whole))], key);
    }
  }

  lemma FinishIsWhole(d: Decoder, pieces: seq<Piece>, parse: Parse)
    requires IsAscending(Indexes(pieces)) && Mirrors(d, pieces, parse)
    ensures Finished(d, parse) == d.sent + Boundary(pieces) + [Done(WholeMessage(Wholes(pieces)))]
  {
    hide Holds, Resolve, Contents, Filled, Boundary, Texts, Calls, Metadata, DeltaText, Ascending, IsAscending, Indexes;
    AscendingSorts(Indexes(pieces), d.table.blocks.Keys);
    assert |Indexes(pieces)| == |pieces| by {
      AreAsMany(pieces);
    }
    ResolveIsWhole(d.table, pieces, |pieces|, parse);
    var t := ResolveAll(d.table, parse).0;
    assert Wholes(pieces)[..|pieces|] == Wholes(pieces);
    FilledIsWhole(d.table, t, pieces);
  }

  lemma AreAsMany(pieces: seq<Piece>)
    ensures |Indexes(pieces)| == |pieces|
  {
  }

  lemma FilledIsWhole(t: Table, t1: Table, pieces: seq<Piece>)
    requires Filled(t, t1, pieces, |pieces|) && Ascending(t.blocks.Keys) == Indexes(pieces)
    ensures Contents(t1) == Wholes(pieces)
  {
    hide Ascending;
  }

  /** The blocks as a whole response carries them. */
  function Raws(pieces: seq<Piece>): seq<Json> { seq(|pieces|, k requires 0 <= k < |pieces| => Object(pieces[k].whole)) }

  lemma RawsDecode(pieces: seq<Piece>, parse: Parse)
    requires Faithful(pieces, parse)
    ensures Decoded(Raws(pieces)) == Wholes(pieces)
  {
    hide Join, Continues, Belongs, SameElsewhere;
    forall k | 0 <= k < |pieces|
      ensures BlockOf(Raws(pieces)[k]) == Some(pieces[k].whole)
    {
      EachIsCut(pieces, parse, k);
    }
  }

  /** All the events of a response whose blocks are cut into these pieces. */
  function Sent(pieces: seq<Piece>, tail: seq<Event>, after: seq<Event>, end: End, parse: Parse): seq<StreamEvent> {
    Run(START, Script(pieces) + tail + ([MessageStop] + after), end, parse)
  }

  /** One done event ends the stream, the text deltas spell its content, and its message is
      the whole response's but for blocks without any key, which the raw content omits; so
      it is the whole response's message exactly when no block is without a key. */
  ghost predicate Conveys(sent: seq<StreamEvent>, pieces: seq<Piece>) {
    var whole := WholeMessage(Decoded(Raws(pieces)));
    && EndsOnce(sent) && sent[|sent| - 1].Done?
    && var message := sent[|sent| - 1].message;
    && DeltaText(sent) == message.content
    && message == whole.(metadata := Metadata(Wholes(Kept(pieces))))
    && (message == whole <==> forall k :: 0 <= k < |pieces| ==> pieces[k].whole != map[])
  }

  /** Streaming equals not streaming, however the blocks of a response are cut. */
  lemma {:induction false} StreamingEqualsWhole(pieces: seq<Piece>, tail: seq<Event>, after: seq<Event>, end: End, parse: Parse)
    requires Faithful(pieces, parse) && forall k :: 0 <= k < |tail| ==> tail[k].Silent?
    ensures Conveys(Sent(pieces, tail, after, end, parse), pieces)
  {
    hide Faithful, Mirrors, DeltaText, Boundary, Sent, Metadata, Texts, Calls, Decoded, Bracketed, Kept, Raws;
    RawsDecode(pieces, parse);
    SentIsFinished(pieces, tail, after, end, parse);
    ScriptMirrors(pieces, parse);
    BoundaryIsBracketed(pieces, parse);
    BracketIsBoundary(Boundary(Kept(pieces)), Tools(pieces), Tools(pieces));
    MessageEnds(After(START, Script(pieces), parse), Kept(pieces), parse);
    KeptSaysTheSame(pieces);
    KeptIsShorter(pieces);
    if |Kept(pieces)| != |pieces| {
      MetadataCounts(Wholes(Kept(pieces)), Wholes(pieces));
    }
  }

  lemma SentIsFinished(pieces: seq<Piece>, tail: seq<Event>, after: seq<Event>, end: End, parse: Parse)
    requires Faithful(pieces, parse) && forall k :: 0 <= k < |tail| ==> tail[k].Silent?
    ensures Sent(pieces, tail, after, end, parse)
      == After(START, Script(pieces), parse).sent + Boundary(Kept(pieces)) + [Done(WholeMessage(Wholes(Kept(pieces))))]
  {
    hide Faithful, Mirrors, Finished, WholeMessage, After, AllPass, DeltaText, Boundary, Kept;
    ScriptMirrors(pieces, parse);
    var script, rest := Script(pieces), [MessageStop] + after;
    var d := After(START, script, parse);
    AfterAppend(START, script, tail, parse);
    SilentKeeps(d, tail, parse);
    SilentPass(tail);
    PassTogether(script, tail);
    RunPasses(START, script + tail, rest, end, parse);
    KeptIsFaithful(pieces, parse);
    FaithfulAscends(Kept(pieces), parse);
    FinishIsWhole(d, Kept(pieces), parse);
  }

  lemma BoundaryIsBracketed(pieces: seq<Piece>, parse: Parse)
    requires Faithful(pieces, parse)
    ensures Bracketed(Boundary(Kept(pieces)), Tools(pieces), Tools(pieces))
    ensures Boundary(Kept(pieces)) == Boundary(pieces)
  {
    hide Faithful, Bracketed, Boundary, Kept, Tools;
    KeptIsFaithful(pieces, parse);
    FaithfulAscends(Kept(pieces), parse);
    BoundaryBrackets(Kept(pieces));
    KeptSaysTheSame(pieces);
  }

  /** Right before the done event, each tool call is started and done once. */
  lemma {:induction false} ToolsAreBracketed(pieces: seq<Piece>, tail: seq<Event>, after: seq<Event>, end: End, parse: Parse)
    requires Faithful(pieces, parse) && forall k :: 0 <= k < |tail| ==> tail[k].Silent?
    ensures var sent, boundary := Sent(pieces, tail, after, end, parse), Boundary(pieces);
      && |boundary| < |sent| && sent[|sent| - 1 - |boundary|..|sent| - 1] == boundary
      && Bracketed(boundary, Tools(pieces), Tools(pieces))
  {
    hide Faithful, Bracketed, Boundary, Sent, WholeMessage, Kept;
    SentIsFinished(pieces, tail, after, end, parse);
    BoundaryIsBracketed(pieces, parse);
  }

  lemma BracketIsBoundary(events: seq<StreamEvent>, started: set<int>, done: set<int>)
    requires Bracketed(events, started, done)
    ensures forall k :: 0 <= k < |events| ==> IsBoundary(events[k])
  {
  }

  lemma MessageEnds(d: Decoder, pieces: seq<Piece>, parse: Parse)
    requires Mirrors(d, pieces, parse) && forall k :: 0 <= k < |Boundary(pieces)| ==> IsBoundary(Boundary(pieces)[k])
    ensures var message := WholeMessage(Wholes(pieces)); var sent := d.sent + Boundary(pieces) + [Done(message)];
      && EndsOnce(sent) && DeltaText(sent) == message.content
      && sent[|sent| - 1 - |Boundary(pieces)|..|sent| - 1] == Boundary(pieces)
  {
    hide Holds, Boundary, DeltaText, Calls, Metadata, Texts;
    var boundary := Boundary(pieces);
    var last := boundary + [Done(WholeMessage(Wholes(pieces)))];
    assert d.sent + last == d.sent + boundary + [Done(WholeMessage(Wholes(pieces)))];
    assert forall e :: e in last ==> !e.Delta?;
    DeltaTextSkips(d.sent, last);
  }

  lemma StoppedBoundary(d: Decoder, d2: Decoder, p: Piece, parse: Parse)
    requires Holds(d2.table, p, parse)
    requires d2.boundary == d.boundary + BoundaryOf(p)[..|BoundaryOf(p)| / 2]
    ensures Stopped(d2, p.index) == d2.(boundary := d.boundary + BoundaryOf(p))
  {
    var b := d2.table.blocks[p.index];
    if IsTool(p.whole) {
      assert forall key :: key != "input" ==> StringAt(b, key) == StringAt(b["input" := Object(InputOf(p.whole))], key);
      assert IsTool(b);
    }
    assert d.boundary + [] == d.boundary;
  }

  // ----- any stream at all

  predicate StopsStream(e: Event) { !Passes(e) }

  /** Nothing final has been sent, and the text sent is the content so far. */
  ghost predicate Open(d: Decoder) {
    && (forall e :: e in d.sent ==> !IsTerminal(e))
    && (forall e :: e in d.boundary ==> IsBoundary(e))
    && DeltaText(d.sent) == d.content
  }

  lemma StepStaysOpen(d: Decoder, e: Event, parse: Parse)
    requires Open(d)
    ensures match Step(d, e, parse)
      case GoesOn(d1) => Passes(e) && Open(d1)
      case Ends(sent) => !Passes(e) && EndsOnce(sent) && (sent[|sent| - 1].Done? ==> sent[|sent| - 1].message.content == DeltaText(sent))
  {
    hide DeltaText, Appended, WithPartial, Stored, ResolveAll, Contents, Metadata, WellTyped, StringAt;
    assert d.content + "" == d.content;
    match e
    case BlockStart(_, Some(raw)) =>
      if BlockOf(raw).Some? {
        DeltaTextAppend(d.sent, TextDelta(TextOf(BlockOf(raw).value)));
        DeltaTextAppend(d.sent, ThinkingDelta(StringAt(BlockOf(raw).value, "thinking")));
      }
    case TextPart(_, text) => DeltaTextAppend(d.sent, TextDelta(text));
    case ThinkingPart(_, thinking) => DeltaTextAppend(d.sent, ThinkingDelta(thinking));
    case MessageStop =>
      var sent := Finished(d, parse);
      forall k | 0 <= k < |sent| - 1
        ensures !IsTerminal(sent[k])
      {
        assert sent[k] in d.sent || sent[k] in d.boundary;
      }
      if sent[|sent| - 1].Done? {
        var last := d.boundary + [sent[|sent| - 1]];
        assert sent == d.sent + last;
        DeltaTextSkips(d.sent, last);
      }
    case _ =>
  }

  /** Whatever arrives, a stream ends with exactly one final event unless its context
      ended first, and the text of a done event is what its deltas spelled. */
  lemma {:induction false} StreamEndsOnce(d: Decoder, events: seq<Event>, end: End, parse: Parse)
    requires Open(d)
    ensures var sent := Run(d, events, end, parse);
      && (EndsOnce(sent) <==> end != ContextEnded || exists k :: 0 <= k < |events| && StopsStream(events[k]))
      && (sent != [] && sent[|sent| - 1].Done? ==> sent[|sent| - 1].message.content == DeltaText(sent))
    decreases |events|
  {
    hide DeltaText, Step, Passes;
    if events == [] {
      assert d.sent + [] == d.sent;
      assert d.sent != [] ==> d.sent[|d.sent| - 1] in d.sent;
    } else {
      StepStaysOpen(d, events[0], parse);
      var step := Step(d, events[0], parse);
      if step.GoesOn? {
        StreamEndsOnce(step.d, events[1..], end, parse);
        assert forall k :: 0 <= k < |events[1..]| ==> events[1..][k] == events[k + 1];
        if k :| 0 <= k < |events| && StopsStream(events[k]) {
          assert StopsStream(events[1..][k - 1]);
        }
      } else {
        assert StopsStream(events[0]);
      }
    }
  }

  /** For one empty block: the stream's message has no raw content, the whole one has. */
  lemma EmptyBlockIsDropped(end: End, parse: Parse)
    ensures Run(START, [BlockStart(0, Some(Object(map[]))), MessageStop], end, parse) == [Done(WholeMessage([]))]
    ensures WholeMessage(Decoded([Object(map[])])).metadata != WholeMessage([]).metadata
  {
    assert CONTENT_KEY in WholeMessage(Decoded([Object(map[])])).metadata;
    assert CONTENT_KEY !in WholeMessage([]).metadata;
    var d := Began(START, 0, map[]);
    assert d == START;
    assert Ascending({}) == [] && Contents(START.table) == [];
    assert ResolveAll(START.table, parse) == (START.table, Some([])) by {
      assert START.table.blocks.Keys == {};
    }
    assert [BlockStart(0, Some(Object(map[]))), MessageStop][1..] == [MessageStop];
    assert Run(d, [MessageStop], end, parse) == Finished(d, parse);
  }

  // ----- what a stream says, event by event

  /** A stream whose done message says what the blocks say and keeps those with a key. */
  ghost predicate KeepsWhole(sent: seq<StreamEvent>, pieces: seq<Piece>) {
    && sent != [] && sent[|sent| - 1].Done?
    && var message := sent[|sent| - 1].message;
    && message.role == Assistant
    && message.content == SaidText(Raws(pieces)) && message.toolCalls == SaidCalls(Raws(pieces))
    && KeepsBlocks(message.metadata, Raws(Kept(pieces)))
  }

  lemma {:induction false} StreamKeepsBlocks(pieces: seq<Piece>, tail: seq<Event>, after: seq<Event>, end: End, parse: Parse)
    requires Faithful(pieces, parse) && forall k :: 0 <= k < |tail| ==> tail[k].Silent?
    ensures KeepsWhole(Sent(pieces, tail, after, end, parse), pieces)
  {
    hide Faithful, DeltaText, Boundary, Sent, Metadata, Texts, Calls, Kept, SaidText, SaidCalls, KeepsBlocks, After, Raws;
    SentIsFinished(pieces, tail, after, end, parse);
    KeptIsFaithful(pieces, parse);
    KeptSaysTheSame(pieces);
    RawsAreKept(Kept(pieces), parse);
    RawsAreKept(pieces, parse);
  }

  lemma RawsAreKept(pieces: seq<Piece>, parse: Parse)
    requires Faithful(pieces, parse)
    ensures Texts(Wholes(pieces)) == SaidText(Raws(pieces)) && Calls(Wholes(pieces)) == SaidCalls(Raws(pieces))
    ensures KeepsBlocks(Metadata(Wholes(pieces)), Raws(pieces))
  {
    hide Cuts, Faithful, Metadata, Texts, Calls, SaidText, SaidCalls, KeepsBlocks;
    RawsDecode(pieces, parse);
    forall k | 0 <= k < |pieces|
      ensures BlockOf(Raws(pieces)[k]).Some?
    {
      EachIsCut(pieces, parse, k);
      WholeDecodes(pieces[k], parse);
    }
    DecodedSays(Raws(pieces));
    DecodedIsKept(Raws(pieces));
  }

  lemma WholeDecodes(p: Piece, parse: Parse)
    requires Cuts(p, parse)
    ensures BlockOf(Object(p.whole)).Some?
  {
  }
}
