/** Values shared by the agent and the provider decoders: decoded JSON, messages and
    stream events. Values are immutable, so the source's cloning is the identity. */
module Core {

  /** What encoding/json decodes into an `any`. */
  datatype Json =
    | Null
    | Bool(b: bool)
    | Number(value: real)
    | String(text: string)
    | List(items: seq<Json>)
    | Object(fields: map<string, Json>)

  datatype Role = Unset | System | User | Assistant | Tool

  datatype ToolCall = ToolCall(id: string, name: string, arguments: map<string, Json>)

  datatype Message = Message(
    role: Role, name: string, toolCallId: string, content: string, toolCalls: seq<ToolCall>, metadata: map<string, Json>)

  datatype Category = ModelCategory | ToolCategory | ApprovalCategory | SchemaCategory | HookCategory
    | CompactCategory | StreamingCategory | OtherCategory(title: string)

  datatype Failure = Failure(category: Category, cause: string)

  datatype StreamEvent =
    | Delta(delta: string, calls: seq<ToolCall>)
    | ThinkingDelta(thinking: string)
    | ToolCallStart(index: int, id: string, name: string)
    | ToolCallDone(index: int, id: string, name: string)
    | Done(message: Message)
    | Error(failure: Failure)
    | UnknownEvent

  function TextDelta(text: string): StreamEvent { Delta(text, []) }

  predicate IsTerminal(e: StreamEvent) { e.Done? || e.Error? }

  /** The concatenated text deltas of a stream. */
  function DeltaText(events: seq<StreamEvent>): string {
    if events == [] then ""
    else DeltaText(events[..|events| - 1]) + (if events[|events| - 1].Delta? then events[|events| - 1].delta else "")
  }

  lemma DeltaTextAppend(events: seq<StreamEvent>, e: StreamEvent)
    ensures DeltaText(events + [e]) == DeltaText(events) + (if e.Delta? then e.delta else "")
  {
    assert (events + [e])[..|events|] == events;
  }

  lemma {:induction false} DeltaTextSkips(events: seq<StreamEvent>, more: seq<StreamEvent>)
    requires forall e :: e in more ==> !e.Delta?
    ensures DeltaText(events + more) == DeltaText(events)
  {
    if more == [] {
      assert events + more == events;
    } else {
      var n := |more| - 1;
      assert more[n] in more;
      DeltaTextSkips(events, more[..n]);
      assert events + more == (events + more[..n]) + [more[n]];
      DeltaTextAppend(events + more[..n], more[n]);
    }
  }

  /** One final event, and nothing after it. */
  ghost predicate EndsOnce(events: seq<StreamEvent>) {
    && events != []
    && IsTerminal(events[|events| - 1])
    && forall i :: 0 <= i < |events| - 1 ==> !IsTerminal(events[i])
  }
}
