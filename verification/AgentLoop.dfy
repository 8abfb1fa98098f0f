/** The tool-calling loop of an agent, written twice in the source: `Run` calls the
    model and waits, `RunStream` forwards the events of a streaming model. Both
    commit to one message history.

    The surroundings of the loop (model, tools, approval, hooks, compaction) are an
    `Env` over a world of any type `W`, so scripts and stateful tools are included. */
module AgentLoop {
  import opened Prelude
  import opened Core

  // ----- messages

  datatype ToolResult = ToolResult(callId: string, name: string, content: string, metadata: map<string, Json>)

  datatype Outcome = Answered(message: Message) | Failed(failure: Failure)

  function UserMessage(input: string): Message { Message(User, "", "", input, [], map[]) }

  function FillRole(m: Message): Message { if m.role.Unset? then m.(role := Assistant) else m }

  const NO_RESULT := ToolResult("", "", "", map[])

  // ----- surroundings

  datatype HookPoint =
    | BeforeModel(round: nat)
    | AfterModel(round: nat, message: Message)
    | AfterModelFailure(round: nat, failure: Failure)
    | BeforeApproval(round: nat, call: ToolCall)
    | AfterApproval(round: nat, call: ToolCall, approved: bool, reason: string, error: Option<Failure>)
    | BeforeTool(round: nat, call: ToolCall)
    | AfterTool(round: nat, call: ToolCall, result: ToolResult, error: Option<Failure>)

  datatype Reply = Reply(message: Message, toolCalls: seq<ToolCall>) | ModelFailed(text: string)

  datatype StreamStart = Started(events: seq<StreamEvent>) | StartFailed(text: string)

  /** An approval that fails still carries whatever decision came with the error. */
  datatype Decision = Approve(reason: string) | Deny(reason: string) | ApprovalFailed(approved: bool, reason: string, text: string)

  datatype CallOutcome = Returned(result: ToolResult) | Threw(result: ToolResult, category: Option<Category>, text: string)

  /** A failing compaction says what the history is then: the after-compact hook may
      reject when the messages have already been replaced. */
  datatype CompactOutcome = Kept | Compacted(messages: seq<Message>) | CompactFailed(messages: seq<Message>, failure: Failure)

  /** A hook answers None to accept and Some(reason) to reject. */
  datatype Env<!W> = Env(
    tools: set<string>,
    hook: (W, HookPoint) -> (W, Option<string>),
    generate: (W, seq<Message>) -> (W, Reply),
    stream: (W, seq<Message>) -> (W, StreamStart),
    validate: ToolCall -> Option<string>,
    approve: (W, ToolCall) -> (W, Decision),
    call: (W, ToolCall) -> (W, CallOutcome),
    tooLarge: ToolResult -> bool,
    compact: (W, nat, seq<Message>) -> (W, CompactOutcome))

  function HookFailure(reason: string): Failure { Failure(HookCategory, reason) }

  const MAX_ROUNDS := Failure(ToolCategory, "agent: max tool rounds exceeded")

  // ----- one tool call

  datatype Execution = Ran(result: ToolResult) | Fault(failure: Failure)

  /** failTool: the after-tool hook may replace the failure. */
  function FailTool<W>(env: Env<W>, round: nat, w: W, call: ToolCall, failure: Failure): (W, Execution) {
    var (w', veto) := env.hook(w, AfterTool(round, call, NO_RESULT, Some(failure)));
    (w', Fault(if veto.Some? then HookFailure(veto.value) else failure))
  }

  function Approval(round: nat, call: ToolCall, d: Decision): HookPoint {
    match d
    case Approve(reason) => AfterApproval(round, call, true, reason, None)
    case Deny(reason) => AfterApproval(round, call, false, reason, Some(Failure(ApprovalCategory, reason)))
    case ApprovalFailed(approved, reason, text) => AfterApproval(round, call, approved, reason, Some(Failure(ApprovalCategory, text)))
  }

  function ExecuteTool<W>(env: Env<W>, round: nat, w: W, call: ToolCall): (W, Execution) {
    if call.name !in env.tools then FailTool(env, round, w, call, Failure(ToolCategory, "agent: tool not found"))
    else if env.validate(call).Some? then FailTool(env, round, w, call, Failure(SchemaCategory, env.validate(call).value))
    else
      var (w1, veto1) := env.hook(w, BeforeApproval(round, call));
      if veto1.Some? then (w1, Fault(HookFailure(veto1.value))) else
      var (w2, decision) := env.approve(w1, call);
      var (w3, veto3) := env.hook(w2, Approval(round, call, decision));
      if veto3.Some? then (w3, Fault(HookFailure(veto3.value))) else
      match decision
      case Deny(reason) => FailTool(env, round, w3, call, Failure(ApprovalCategory, reason))
      case ApprovalFailed(_, _, text) => FailTool(env, round, w3, call, Failure(ApprovalCategory, text))
      case Approve(_) =>
        var (w4, veto4) := env.hook(w3, BeforeTool(round, call));
        if veto4.Some? then (w4, Fault(HookFailure(veto4.value))) else
        var (w5, outcome) := env.call(w4, call);
        var (result, failure) := Judge(env, call, outcome);
        var (w6, veto6) := env.hook(w5, AfterTool(round, call, result, failure));
        (w6, if veto6.Some? then Fault(HookFailure(veto6.value))
             else if failure.Some? then Fault(failure.value) else Ran(result))
  }

  function Labelled(result: ToolResult, call: ToolCall): ToolResult {
    result.(callId := if result.callId == "" then call.id else result.callId,
            name := if result.name == "" then call.name else result.name)
  }

  /** The labelled result of a call and what is wrong with it, if anything. */
  function Judge<W>(env: Env<W>, call: ToolCall, outcome: CallOutcome): (ToolResult, Option<Failure>) {
    var result := Labelled(outcome.result, call);
    match outcome
    case Threw(_, category, text) => (result, Some(Failure(if category.Some? then category.value else ToolCategory, text)))
    case Returned(_) => (result, if env.tooLarge(result) then Some(Failure(ToolCategory, "agent: tool result too large")) else None)
  }

  /** Approval and hook failures end the run; the model is told of any other. */
  predicate Terminal(f: Failure) { f.category.ApprovalCategory? || f.category.HookCategory? }

  function Feedback(call: ToolCall, f: Failure): ToolResult {
    ToolResult(call.id, call.name, "Tool call failed: " + f.cause + ". Fix the arguments or choose another approach.", map[])
  }

  function ToolMessage(result: ToolResult): Message { Message(Tool, result.name, result.callId, result.content, [], result.metadata) }

  // ----- the tool calls of one round

  datatype ToolsResult<W> = ToolsResult(world: W, messages: seq<Message>, failure: Option<Failure>)

  function RunTools<W>(env: Env<W>, round: nat, w: W, calls: seq<ToolCall>): ToolsResult<W> {
    if calls == [] then ToolsResult(w, [], None) else
    var (w', execution) := ExecuteTool(env, round, w, calls[0]);
    if execution.Fault? && Terminal(execution.failure) then ToolsResult(w', [], Some(execution.failure)) else
    var result := if execution.Ran? then execution.result else Feedback(calls[0], execution.failure);
    var rest := RunTools(env, round, w', calls[1..]);
    rest.(messages := [ToolMessage(result)] + rest.messages)
  }

  // ----- the whole run, waiting for each reply

  datatype RunResult<W> = RunResult(world: W, history: seq<Message>, outcome: Outcome, modelCalls: nat)

  function Rounds(n: int): nat { if n < 0 then 0 else n }

  /** One round either ends the run or goes on with a world and a history. */
  datatype RunStep<W> = RunEnds(result: RunResult<W>) | RunGoesOn(world: W, history: seq<Message>)

  function RunRound<W>(env: Env<W>, maxRounds: int, round: nat, w: W, h: seq<Message>): RunStep<W> {
    var (w1, veto1) := env.hook(w, BeforeModel(round + 1));
    if veto1.Some? then RunEnds(RunResult(w1, h, Failed(HookFailure(veto1.value)), 0)) else
    var (w2, reply) := env.generate(w1, h);
    match reply
    case ModelFailed(text) =>
      var (w3, veto3) := env.hook(w2, AfterModelFailure(round + 1, Failure(ModelCategory, text)));
      RunEnds(RunResult(w3, h, Failed(if veto3.Some? then HookFailure(veto3.value) else Failure(ModelCategory, text)), 1))
    case Reply(message, calls) =>
      var (w3, veto3) := env.hook(w2, AfterModel(round + 1, message));
      if veto3.Some? then RunEnds(RunResult(w3, h, Failed(HookFailure(veto3.value)), 1))
      else if calls == [] then RunEnds(RunResult(w3, h + [FillRole(message)], Answered(FillRole(message)), 1))
      else if round >= maxRounds then RunEnds(RunResult(w3, h, Failed(MAX_ROUNDS), 1))
      else ToolRound(env, round + 1, w3, h, FillRole(message).(toolCalls := calls))
  }

  /** Commits an assistant message with tool calls and its tool messages, then compacts. */
  function ToolRound<W>(env: Env<W>, round: nat, w: W, h: seq<Message>, m: Message): RunStep<W> {
    var tools := RunTools(env, round, w, m.toolCalls);
    var h' := h + [m] + tools.messages;
    if tools.failure.Some? then RunEnds(RunResult(tools.world, h', Failed(tools.failure.value), 1))
    else Shortened(env, round, tools.world, h')
  }

  /** maybeCompact at the end of a round. */
  function Shortened<W>(env: Env<W>, round: nat, w: W, h: seq<Message>): RunStep<W> {
    var (w', compacted) := env.compact(w, round, h);
    if compacted.CompactFailed? then RunEnds(RunResult(w', compacted.messages, Failed(compacted.failure), 1))
    else RunGoesOn(w', AfterCompaction(h, compacted))
  }

  function RunLoop<W>(env: Env<W>, maxRounds: int, round: nat, w: W, h: seq<Message>): RunResult<W>
    decreases Rounds(maxRounds - round)
  {
    match RunRound(env, maxRounds, round, w, h)
    case RunEnds(result) => result
    case RunGoesOn(w', h') => Plus(RunLoop(env, maxRounds, round + 1, w', h'), 1)
  }

  function Plus<W>(r: RunResult<W>, calls: nat): RunResult<W> { r.(modelCalls := r.modelCalls + calls) }

  function AfterCompaction(h: seq<Message>, compacted: CompactOutcome): seq<Message> {
    if compacted.Kept? then h else compacted.messages
  }

  function RunOnce<W>(env: Env<W>, maxRounds: int, w: W, h: seq<Message>, input: string): RunResult<W> {
    var h' := h + [UserMessage(input)];
    var (w1, compacted) := env.compact(w, 1, h');
    if compacted.CompactFailed? then RunResult(w1, compacted.messages, Failed(compacted.failure), 0)
    else RunLoop(env, maxRounds, 0, w1, AfterCompaction(h', compacted))
  }

  // ----- the whole run, forwarding a stream

  /** How the events of one round end: a message to commit, or a failure. */
  datatype RoundEnd = Finished(message: Message) | Broken(failure: Failure)

  function FillDone(m: Message, content: string): Message {
    FillRole(m).(content := if m.content == "" then content else m.content)
  }

  function RoundOf(events: seq<StreamEvent>, content: string): RoundEnd {
    if events == [] then Broken(Failure(StreamingCategory, "agent: stream ended without done event")) else
    match events[0]
    case Delta(text, calls) =>
      if calls != [] then Broken(Failure(StreamingCategory, "agent: streaming tool calls unsupported"))
      else RoundOf(events[1..], content + text)
    case ThinkingDelta(_) => RoundOf(events[1..], content)
    case ToolCallStart(_, _, _) => RoundOf(events[1..], content)
    case ToolCallDone(_, _, _) => RoundOf(events[1..], content)
    case Done(m) => Finished(FillDone(m, content))
    case Error(f) => Broken(Failure(ModelCategory, f.cause))
    case UnknownEvent => Broken(Failure(StreamingCategory, "agent: unknown stream event type"))
  }

  /** What the caller receives of a round before its end. */
  function Forwarded(events: seq<StreamEvent>): seq<StreamEvent> {
    if events == [] then [] else
    match events[0]
    case Delta(_, calls) => if calls != [] then [] else [events[0]] + Forwarded(events[1..])
    case ThinkingDelta(_) => [events[0]] + Forwarded(events[1..])
    case ToolCallStart(_, _, _) => [events[0]] + Forwarded(events[1..])
    case ToolCallDone(_, _, _) => [events[0]] + Forwarded(events[1..])
    case _ => []
  }

  /** `channel` says whether RunStream returned a channel; if not, it returned the failure. */
  datatype StreamResult<W> = StreamResult(run: RunResult<W>, channel: bool, sent: seq<StreamEvent>)

  function Stopped<W>(w: W, h: seq<Message>, sent: seq<StreamEvent>, f: Failure, calls: nat): StreamResult<W> {
    StreamResult(RunResult(w, h, Failed(f), calls), true, sent + [Error(f)])
  }

  function NotStarted<W>(round: nat, w: W, h: seq<Message>, f: Failure, calls: nat): StreamResult<W> {
    if round == 1 then StreamResult(RunResult(w, h, Failed(f), calls), false, []) else Stopped(w, h, [], f, calls)
  }

  /** A failed round still reports to the after-model hook, which may replace the failure. */
  function ReportFailure<W>(env: Env<W>, round: nat, w: W, f: Failure): (W, Failure) {
    var (w', veto) := env.hook(w, AfterModelFailure(round, f));
    (w', if veto.Some? then HookFailure(veto.value) else f)
  }

  datatype Forwarding<W> = Over(result: StreamResult<W>) | Calls(world: W, message: Message, sent: seq<StreamEvent>)

  /** forwardStreamRound: forwards the events of one round up to its message or failure. */
  function ForwardRound<W>(env: Env<W>, round: nat, w: W, h: seq<Message>, events: seq<StreamEvent>): Forwarding<W> {
    var sent, end := Forwarded(events), RoundOf(events, "");
    if end.Broken? then
      var (w', f) := ReportFailure(env, round, w, end.failure);
      Over(Stopped(w', h, sent, f, 1))
    else
    var message := end.message;
    var (w', veto) := env.hook(w, AfterModel(round, message));
    if veto.Some? then Over(Stopped(w', h, sent, HookFailure(veto.value), 1))
    else if message.toolCalls != [] then Calls(w', message, sent)
    else Over(StreamResult(RunResult(w', h + [message], Answered(message), 1), true, sent + [Done(message)]))
  }

  /** The tool calls of a streamed round, appending to the history as it goes. */
  function StreamTools<W>(env: Env<W>, round: nat, w: W, h: seq<Message>, calls: seq<ToolCall>): ToolsResult<W>
    decreases |calls|
  {
    if calls == [] then ToolsResult(w, h, None) else
    var (w', execution) := ExecuteTool(env, round, w, calls[0]);
    match execution
    case Fault(failure) =>
      if Terminal(failure) then ToolsResult(w', h, Some(failure))
      else StreamTools(env, round, w', h + [ToolMessage(Feedback(calls[0], failure))], calls[1..])
    case Ran(result) => StreamTools(env, round, w', h + [ToolMessage(result)], calls[1..])
  }

  function StreamToolRound<W>(env: Env<W>, round: nat, w: W, h: seq<Message>, m: Message): RunStep<W> {
    var tools := StreamTools(env, round, w, h + [m], m.toolCalls);
    if tools.failure.Some? then RunEnds(RunResult(tools.world, tools.messages, Failed(tools.failure.value), 1))
    else Shortened(env, round, tools.world, tools.messages)
  }

  datatype StreamStep<W> = StreamEnds(result: StreamResult<W>) | StreamGoesOn(world: W, history: seq<Message>, sent: seq<StreamEvent>)

  function StreamRound<W>(env: Env<W>, maxRounds: int, round: nat, w: W, h: seq<Message>): StreamStep<W> {
    var (w1, veto1) := env.hook(w, BeforeModel(round));
    if veto1.Some? then StreamEnds(NotStarted(round, w1, h, HookFailure(veto1.value), 0)) else
    var (w2, start) := env.stream(w1, h);
    if start.StartFailed? then
      var (w3, f) := ReportFailure(env, round, w2, Failure(ModelCategory, start.text));
      StreamEnds(NotStarted(round, w3, h, f, 1))
    else
    match ForwardRound(env, round, w2, h, start.events)
    case Over(result) => StreamEnds(result)
    case Calls(w3, message, sent) =>
      if round > maxRounds then StreamEnds(Stopped(w3, h, sent, MAX_ROUNDS, 1)) else
      match StreamToolRound(env, round, w3, h, message)
      case RunEnds(r) =>
        StreamEnds(StreamResult(r, true, sent + (if r.outcome.Failed? then [Error(r.outcome.failure)] else [])))
      case RunGoesOn(w', h') => StreamGoesOn(w', h', sent)
  }

  function StreamLoop<W>(env: Env<W>, maxRounds: int, round: nat, w: W, h: seq<Message>): StreamResult<W>
    decreases Rounds(maxRounds + 1 - round)
  {
    match StreamRound(env, maxRounds, round, w, h)
    case StreamEnds(result) => result
    case StreamGoesOn(w', h', sent) => PlusStream(sent, StreamLoop(env, maxRounds, round + 1, w', h'), 1)
  }

  function PlusStream<W>(before: seq<StreamEvent>, r: StreamResult<W>, calls: nat): StreamResult<W> {
    StreamResult(Plus(r.run, calls), r.channel, before + r.sent)
  }

  function StreamOnce<W>(env: Env<W>, maxRounds: int, w: W, h: seq<Message>, input: string): StreamResult<W> {
    var h' := h + [UserMessage(input)];
    var (w1, compacted) := env.compact(w, 1, h');
    if compacted.CompactFailed? then NotStarted(1, w1, compacted.messages, compacted.failure, 0)
    else StreamLoop(env, maxRounds, 1, w1, AfterCompaction(h', compacted))
  }

  // ----- the two implementations agree

  /** The message Run makes of a reply: a role is filled in, and the reply's own list of
      tool calls replaces the message's. */
  function Normal(m: Message, calls: seq<ToolCall>): Message {
    if calls == [] then FillRole(m) else FillRole(m).(toolCalls := calls)
  }

  /** A stream says the same as a reply: its done message, its content filled from the
      deltas, is what Run makes of the reply, or both fail with the same model error. */
  predicate SaysTheSame(reply: Reply, start: StreamStart) {
    match reply
    case ModelFailed(text) =>
      || (start.StartFailed? && start.text == text)
      || (start.Started? && RoundOf(start.events, "") == Broken(Failure(ModelCategory, text)))
    case Reply(message, calls) =>
      && start.Started? && RoundOf(start.events, "") == Finished(Normal(message, calls))
      && (calls == [] ==> message.toolCalls == [])
  }

  /** Run shows its hooks the message as it came, RunStream as it is committed; where the
      two differ, hooks must not care. */
  ghost predicate HooksAlike<W(!new)>(env: Env<W>, reply: Reply) {
    reply.Reply? && reply.message != Normal(reply.message, reply.toolCalls) ==>
      forall w: W, round: nat ::
        env.hook(w, AfterModel(round, reply.message)) == env.hook(w, AfterModel(round, Normal(reply.message, reply.toolCalls)))
  }

  ghost predicate Faithful<W(!new)>(env: Env<W>) {
    forall w: W, h: seq<Message> ::
      && env.generate(w, h).0 == env.stream(w, h).0
      && SaysTheSame(env.generate(w, h).1, env.stream(w, h).1)
      && HooksAlike(env, env.generate(w, h).1)
  }

  /** The two loops over the tool calls of a round leave the same world and history. */
  lemma {:induction false} ToolLoopsAgree<W>(env: Env<W>, round: nat, w: W, h: seq<Message>, calls: seq<ToolCall>)
    ensures var (r, t) := (RunTools(env, round, w, calls), StreamTools(env, round, w, h, calls));
      t.world == r.world && t.messages == h + r.messages && t.failure == r.failure
    decreases |calls|
  {
    hide ExecuteTool;
    if calls != [] {
      var (w', e) := ExecuteTool(env, round, w, calls[0]);
      var message := ToolMessage(if e.Ran? then e.result else Feedback(calls[0], e.failure));
      ToolLoopsAgree(env, round, w', h + [message], calls[1..]);
      var rest := RunTools(env, round, w', calls[1..]).messages;
      assert h + [message] + rest == h + ([message] + rest);
    }
  }

  lemma ToolRoundsAgree<W>(env: Env<W>, round: nat, w: W, h: seq<Message>, m: Message)
    ensures StreamToolRound(env, round, w, h, m) == ToolRound(env, round, w, h, m)
  {
    hide RunTools, StreamTools, Shortened;
    ToolLoopsAgree(env, round, w, h + [m], m.toolCalls);
  }

  lemma RoundsAgree<W(!new)>(env: Env<W>, maxRounds: int, round: nat, w: W, h: seq<Message>)
    requires Faithful(env)
    ensures match StreamRound(env, maxRounds, round + 1, w, h)
      case StreamEnds(r) => RunRound(env, maxRounds, round, w, h) == RunEnds(r.run)
      case StreamGoesOn(w', h', _) => RunRound(env, maxRounds, round, w, h) == RunGoesOn(w', h')
  {
    hide ToolRound, StreamToolRound, RoundOf, Forwarded;
    var w1 := env.hook(w, BeforeModel(round + 1)).0;
    var (w2, reply) := env.generate(w1, h);
    assert SaysTheSame(reply, env.stream(w1, h).1) && HooksAlike(env, reply);
    if reply.Reply? {
      var message := Normal(reply.message, reply.toolCalls);
      assert env.hook(w2, AfterModel(round + 1, reply.message)) == env.hook(w2, AfterModel(round + 1, message));
      ToolRoundsAgree(env, round + 1, env.hook(w2, AfterModel(round + 1, message)).0, h, message);
    }
  }

  /** The clause on stray calls is needed: when a reply lists no calls but its message does,
      Run takes the message as its answer and RunStream runs the tools. */
  lemma StrayCallsDivide<W>(env: Env<W>, maxRounds: int, round: nat, w: W, h: seq<Message>)
    requires env.hook(w, BeforeModel(round + 1)).1.None?
    requires var w1 := env.hook(w, BeforeModel(round + 1)).0;
      var (w2, reply) := env.generate(w1, h);
      && reply.Reply? && reply.toolCalls == [] && reply.message.toolCalls != []
      && env.stream(w1, h).0 == w2 && env.stream(w1, h).1.Started?
      && RoundOf(env.stream(w1, h).1.events, "") == Finished(FillRole(reply.message))
      && env.hook(w2, AfterModel(round + 1, reply.message)).1.None?
    ensures var step := RunRound(env, maxRounds, round, w, h); step.RunEnds? && step.result.outcome.Answered?
    ensures var step := StreamRound(env, maxRounds, round + 1, w, h); step.StreamEnds? ==> !step.result.run.outcome.Answered?
  {
    hide RoundOf, Forwarded, StreamTools;
  }

  lemma {:induction false} LoopsAgree<W(!new)>(env: Env<W>, maxRounds: int, round: nat, w: W, h: seq<Message>)
    requires Faithful(env)
    ensures StreamLoop(env, maxRounds, round + 1, w, h).run == RunLoop(env, maxRounds, round, w, h)
    decreases Rounds(maxRounds - round)
  {
    hide RunRound, StreamRound, Faithful;
    RoundsAgree(env, maxRounds, round, w, h);
    RoundsAreBounded(env, maxRounds, round, w, h);
    var step := RunRound(env, maxRounds, round, w, h);
    if step.RunGoesOn? {
      LoopsAgree(env, maxRounds, round + 1, step.world, step.history);
    }
  }

  lemma RoundsAreBounded<W>(env: Env<W>, maxRounds: int, round: nat, w: W, h: seq<Message>)
    ensures RunRound(env, maxRounds, round, w, h).RunGoesOn? ==> round < maxRounds
  {
  }

  /** Run and RunStream leave the same history and world and end in the same outcome,
      hook rejections, approval denials, compaction and the round limit included. */
  lemma RunStreamAgreesWithRun<W(!new)>(env: Env<W>, maxRounds: int, w: W, h: seq<Message>, input: string)
    requires Faithful(env)
    ensures StreamOnce(env, maxRounds, w, h, input).run == RunOnce(env, maxRounds, w, h, input)
  {
    var h' := h + [UserMessage(input)];
    var (w1, compacted) := env.compact(w, 1, h');
    if !compacted.CompactFailed? {
      LoopsAgree(env, maxRounds, 0, w1, AfterCompaction(h', compacted));
    }
  }

  // ----- what a run adds to the history

  ghost predicate CompactionOff<W(!new)>(env: Env<W>) {
    forall w: W, round: nat, h: seq<Message> :: env.compact(w, round, h) == (w, Kept)
  }

  /** Every tool leaves CallID empty or echoes the call it answers. */
  ghost predicate EchoesIds<W(!new)>(env: Env<W>) {
    forall w: W, call: ToolCall :: env.call(w, call).1.result.callId == "" || env.call(w, call).1.result.callId == call.id
  }

  predicate Answers(m: Message, call: ToolCall) { m.role.Tool? && m.toolCallId == call.id && m.toolCalls == [] }

  /** An assistant message with tool calls, then answers to its calls, in order. */
  ghost predicate IsBlockPrefix(block: seq<Message>) {
    && block != [] && block[0].toolCalls != [] && !block[0].role.Unset?
    && |block| <= 1 + |block[0].toolCalls|
    && forall k :: 1 <= k < |block| ==> Answers(block[k], block[0].toolCalls[k - 1])
  }

  ghost predicate IsBlock(block: seq<Message>) { IsBlockPrefix(block) && |block| == 1 + |block[0].toolCalls| }

  lemma {:induction false} ToolsAnswerInOrder<W(!new)>(env: Env<W>, round: nat, w: W, calls: seq<ToolCall>)
    requires EchoesIds(env)
    ensures var r := RunTools(env, round, w, calls);
      && (r.failure.None? ==> |r.messages| == |calls|)
      && (r.failure.Some? ==> |r.messages| < |calls| && Terminal(r.failure.value))
      && forall k :: 0 <= k < |r.messages| ==> Answers(r.messages[k], calls[k])
  {
    if calls != [] {
      var (w', execution) := ExecuteTool(env, round, w, calls[0]);
      if !(execution.Fault? && Terminal(execution.failure)) {
        ToolsAnswerInOrder(env, round, w', calls[1..]);
        RanAnswers(env, round, w, calls[0]);
      }
    }
  }

  lemma RanAnswers<W(!new)>(env: Env<W>, round: nat, w: W, call: ToolCall)
    requires EchoesIds(env)
    ensures var e := ExecuteTool(env, round, w, call).1; e.Ran? ==> e.result.callId == call.id
  {
    var w1 := env.hook(w, BeforeApproval(round, call)).0;
    var (w2, decision) := env.approve(w1, call);
    var w3 := env.hook(w2, Approval(round, call, decision)).0;
    var w4 := env.hook(w3, BeforeTool(round, call)).0;
    var outcome := env.call(w4, call).1;
    assert outcome.result.callId == "" || outcome.result.callId == call.id;
  }

  /** The history after a run is the old one, then tool blocks, then the answer if there is one. */
  ghost predicate Extends<W>(r: RunResult<W>, h: seq<Message>, blocks: seq<seq<Message>>, bound: nat) {
    && r.history == h + Flatten(blocks) + (if r.outcome.Answered? then [r.outcome.message] else [])
    && |blocks| <= bound
    && r.modelCalls <= bound + 1
    && (forall b :: 0 <= b < |blocks| ==> IsBlockPrefix(blocks[b]))
    && (forall b :: 0 <= b < |blocks| - 1 ==> IsBlock(blocks[b]))
    && (r.outcome.Answered? ==>
        && r.modelCalls == |blocks| + 1 && !r.outcome.message.role.Unset?
        && forall b :: 0 <= b < |blocks| ==> IsBlock(blocks[b]))
    && (blocks != [] && !IsBlock(blocks[|blocks| - 1]) ==> r.outcome.Failed? && Terminal(r.outcome.failure))
    && (r.outcome == Failed(MAX_ROUNDS) ==> |blocks| == bound && r.modelCalls == bound + 1)
  }

  lemma ExtendsAfterBlock<W>(rest: RunResult<W>, h: seq<Message>, block: seq<Message>, blocks: seq<seq<Message>>, bound: nat)
    requires IsBlock(block) && Extends(rest, h + block, blocks, bound)
    ensures Extends(rest.(modelCalls := rest.modelCalls + 1), h, [block] + blocks, bound + 1)
  {
    var all := [block] + blocks;
    assert all[1..] == blocks;
    forall b | 0 <= b < |all| ensures IsBlockPrefix(all[b]) && (b < |all| - 1 ==> IsBlock(all[b])) {
      if b > 0 {
        assert all[b] == blocks[b - 1];
      }
    }
    if rest.outcome.Answered? {
      forall b | 0 <= b < |all| ensures IsBlock(all[b]) {
        if b > 0 {
          assert all[b] == blocks[b - 1];
        }
      }
    }
  }

  lemma NothingAdded<W>(r: RunResult<W>, h: seq<Message>, bound: nat)
    requires r.modelCalls <= 1
    requires match r.outcome
      case Answered(m) => r.history == h + [m] && r.modelCalls == 1 && !m.role.Unset?
      case Failed(f) => r.history == h && (f == MAX_ROUNDS ==> bound == 0 && r.modelCalls == 1)
    ensures Extends(r, h, [], bound)
  {
    assert h + [] == h;
  }

  lemma OneBlock<W>(r: RunResult<W>, h: seq<Message>, block: seq<Message>, bound: nat)
    requires bound > 0 && IsBlockPrefix(block) && r.modelCalls == 1
    requires r.outcome.Failed? && Terminal(r.outcome.failure) && r.history == h + block
    ensures Extends(r, h, [block], bound)
  {
    assert Flatten([block]) == block + Flatten([]) == block;
  }

  lemma BlockOfRound<W(!new)>(env: Env<W>, round: nat, w: W, reply: Reply)
    requires EchoesIds(env) && reply.Reply? && reply.toolCalls != []
    ensures var tools := RunTools(env, round, w, reply.toolCalls);
      var block := [FillRole(reply.message).(toolCalls := reply.toolCalls)] + tools.messages;
      && IsBlockPrefix(block)
      && (tools.failure.None? ==> IsBlock(block))
      && (tools.failure.Some? ==> Terminal(tools.failure.value))
  {
    ToolsAnswerInOrder(env, round, w, reply.toolCalls);
  }

  lemma {:induction false} LoopExtends<W(!new)>(env: Env<W>, maxRounds: int, round: nat, w: W, h: seq<Message>)
    returns (blocks: seq<seq<Message>>)
    requires CompactionOff(env) && EchoesIds(env)
    ensures Extends(RunLoop(env, maxRounds, round, w, h), h, blocks, Rounds(maxRounds - round))
    decreases Rounds(maxRounds - round)
  {
    hide RunTools, IsBlock, IsBlockPrefix, Extends;
    var (w1, veto1) := env.hook(w, BeforeModel(round + 1));
    var (w2, reply) := env.generate(w1, h);
    if veto1.None? && reply.Reply? && reply.toolCalls != [] && round < maxRounds {
      var (w3, veto3) := env.hook(w2, AfterModel(round + 1, reply.message));
      if veto3.None? {
        var tools := RunTools(env, round + 1, w3, reply.toolCalls);
        var block := [FillRole(reply.message).(toolCalls := reply.toolCalls)] + tools.messages;
        BlockOfRound(env, round + 1, w3, reply);
        assert h + [block[0]] + tools.messages == h + block;
        if tools.failure.Some? {
          OneBlock(RunLoop(env, maxRounds, round, w, h), h, block, Rounds(maxRounds - round));
          return [block];
        }
        assert env.compact(tools.world, round + 1, h + block) == (tools.world, Kept);
        var rest := LoopExtends(env, maxRounds, round + 1, tools.world, h + block);
        ExtendsAfterBlock(RunLoop(env, maxRounds, round + 1, tools.world, h + block), h, block, rest, Rounds(maxRounds - round - 1));
        return [block] + rest;
      }
    }
    NothingAdded(RunLoop(env, maxRounds, round, w, h), h, Rounds(maxRounds - round));
    blocks := [];
  }

  /** With compaction off, a run adds the user message, at most MaxToolRounds complete
      blocks, and the answer; only an approval or hook failure cuts the last block short. */
  lemma RunExtendsHistory<W(!new)>(env: Env<W>, maxRounds: int, w: W, h: seq<Message>, input: string)
    returns (blocks: seq<seq<Message>>)
    requires CompactionOff(env) && EchoesIds(env)
    ensures Extends(RunOnce(env, maxRounds, w, h, input), h + [UserMessage(input)], blocks, Rounds(maxRounds))
  {
    var h' := h + [UserMessage(input)];
    assert env.compact(w, 1, h') == (w, Kept);
    blocks := LoopExtends(env, maxRounds, 0, w, h');
  }

  // ----- what the caller of RunStream sees

  lemma {:induction false} ForwardedNeverEnds(events: seq<StreamEvent>)
    ensures forall e :: e in Forwarded(events) ==> !IsTerminal(e)
  {
    if events != [] {
      ForwardedNeverEnds(events[1..]);
    }
  }

  /** Exactly one final event, last; it is a done event exactly when that message was committed. */
  ghost predicate Reported<W>(r: StreamResult<W>) {
    && EndsOnce(r.sent)
    && (match r.run.outcome
        case Answered(m) =>
          && r.sent[|r.sent| - 1] == Done(m)
          && r.run.history != [] && r.run.history[|r.run.history| - 1] == m
        case Failed(f) => r.sent[|r.sent| - 1] == Error(f))
  }

  lemma RoundEndsOnce<W>(env: Env<W>, maxRounds: int, round: nat, w: W, h: seq<Message>)
    ensures match StreamRound(env, maxRounds, round, w, h)
      case StreamEnds(r) => if r.channel then Reported(r) else round == 1 && r.sent == [] && r.run.outcome.Failed? && r.run.history == h
      case StreamGoesOn(_, _, sent) => round <= maxRounds && forall e :: e in sent ==> !IsTerminal(e)
  {
    hide StreamTools, Forwarded, RoundOf;
    var start := env.stream(env.hook(w, BeforeModel(round)).0, h).1;
    if start.Started? {
      ForwardedNeverEnds(start.events);
    }
  }

  /** Once RunStream has returned a channel, the caller receives exactly one final event. */
  lemma {:induction false} StreamEndsOnce<W>(env: Env<W>, maxRounds: int, round: nat, w: W, h: seq<Message>)
    requires round >= 1
    ensures var r := StreamLoop(env, maxRounds, round, w, h);
      if r.channel then Reported(r) else round == 1 && r.sent == [] && r.run.outcome.Failed? && r.run.history == h
    decreases Rounds(maxRounds + 1 - round)
  {
    hide StreamRound;
    RoundEndsOnce(env, maxRounds, round, w, h);
    var step := StreamRound(env, maxRounds, round, w, h);
    if step.StreamGoesOn? {
      StreamEndsOnce(env, maxRounds, round + 1, step.world, step.history);
      var r, rest := StreamLoop(env, maxRounds, round, w, h), StreamLoop(env, maxRounds, round + 1, step.world, step.history);
      assert r.sent == step.sent + rest.sent;
    }
  }

  // ----- the agent

  class Agent<W> {
    const env: Env<W>
    const maxToolRounds: int
    var world: W
    var messages: seq<Message>

    constructor (env: Env<W>, maxToolRounds: int, world: W, messages: seq<Message>)
      ensures this.env == env && this.maxToolRounds == maxToolRounds
      ensures this.world == world && this.messages == messages
    {
      this.env, this.maxToolRounds, this.world, this.messages := env, maxToolRounds, world, messages;
    }

    method Emit(point: HookPoint) returns (veto: Option<string>)
      modifies this`world
      ensures (world, veto) == env.hook(old(world), point)
    {
      var (w, answer) := env.hook(world, point);
      world, veto := w, answer;
    }

    method FailToolCall(round: nat, call: ToolCall, failure: Failure) returns (e: Execution)
      modifies this`world
      ensures (world, e) == FailTool(env, round, old(world), call, failure)
    {
      var veto := Emit(AfterTool(round, call, NO_RESULT, Some(failure)));
      e := Fault(if veto.Some? then HookFailure(veto.value) else failure);
    }

    method Execute(round: nat, call: ToolCall) returns (e: Execution)
      modifies this`world
      ensures (world, e) == ExecuteTool(env, round, old(world), call)
    {
      if call.name !in env.tools {
        e := FailToolCall(round, call, Failure(ToolCategory, "agent: tool not found"));
        return;
      }
      var invalid := env.validate(call);
      if invalid.Some? {
        e := FailToolCall(round, call, Failure(SchemaCategory, invalid.value));
        return;
      }
      var veto := Emit(BeforeApproval(round, call));
      if veto.Some? {
        return Fault(HookFailure(veto.value));
      }
      var (w, decision) := env.approve(world, call);
      world := w;
      veto := Emit(Approval(round, call, decision));
      if veto.Some? {
        return Fault(HookFailure(veto.value));
      }
      if decision.Deny? {
        e := FailToolCall(round, call, Failure(ApprovalCategory, decision.reason));
        return;
      }
      if decision.ApprovalFailed? {
        e := FailToolCall(round, call, Failure(ApprovalCategory, decision.text));
        return;
      }
      veto := Emit(BeforeTool(round, call));
      if veto.Some? {
        return Fault(HookFailure(veto.value));
      }
      var (w', outcome) := env.call(world, call);
      world := w';
      var (result, failure) := Judge(env, call, outcome);
      veto := Emit(AfterTool(round, call, result, failure));
      e := if veto.Some? then Fault(HookFailure(veto.value)) else if failure.Some? then Fault(failure.value) else Ran(result);
    }

    method AppendMessage(m: Message)
      modifies this`messages
      ensures messages == old(messages) + [m]
    {
      messages := messages + [m];
    }

    /** Run's inner loop over the tool calls of one reply. */
    method ExecuteAll(round: nat, calls: seq<ToolCall>) returns (failure: Option<Failure>)
      modifies this`world, this`messages
      ensures var r := RunTools(env, round, old(world), calls);
        world == r.world && messages == old(messages) + r.messages && failure == r.failure
    {
      hide ExecuteTool;
      ghost var whole := RunTools(env, round, world, calls);
      var i := 0;
      while i < |calls|
        invariant i <= |calls|
        invariant var rest := RunTools(env, round, world, calls[i..]);
          && whole.world == rest.world && whole.failure == rest.failure
          && old(messages) + whole.messages == messages + rest.messages
      {
        ghost var rest := RunTools(env, round, world, calls[i..]);
        assert calls[i..][0] == calls[i] && calls[i..][1..] == calls[i + 1..];
        var e := Execute(round, calls[i]);
        if e.Fault? && Terminal(e.failure) {
          return Some(e.failure);
        }
        var result := if e.Ran? then e.result else Feedback(calls[i], e.failure);
        AppendMessage(ToolMessage(result));
        i := i + 1;
      }
      failure := None;
    }

    /** RunStream's inner loop over the tool calls of one round. */
    method ForwardTools(round: nat, calls: seq<ToolCall>) returns (failure: Option<Failure>)
      modifies this`world, this`messages
      ensures StreamTools(env, round, old(world), old(messages), calls) == ToolsResult(world, messages, failure)
    {
      hide ExecuteTool;
      var i := 0;
      while i < |calls|
        invariant i <= |calls|
        invariant StreamTools(env, round, world, messages, calls[i..]) == StreamTools(env, round, old(world), old(messages), calls)
      {
        assert calls[i..][0] == calls[i] && calls[i..][1..] == calls[i + 1..];
        var e := Execute(round, calls[i]);
        if e.Fault? {
          if Terminal(e.failure) {
            return Some(e.failure);
          }
          AppendMessage(ToolMessage(Feedback(calls[i], e.failure)));
        } else {
          AppendMessage(ToolMessage(e.result));
        }
        i := i + 1;
      }
      failure := None;
    }

    method MaybeCompact(round: nat) returns (failure: Option<Failure>)
      modifies this`world, this`messages
      ensures var (w, compacted) := env.compact(old(world), round, old(messages));
        && world == w && messages == AfterCompaction(old(messages), compacted)
        && failure == if compacted.CompactFailed? then Some(compacted.failure) else None
    {
      var (w, compacted) := env.compact(world, round, messages);
      world := w;
      match compacted
      case Kept => failure := None;
      case Compacted(replacement) => messages, failure := replacement, None;
      case CompactFailed(left, f) => messages, failure := left, Some(f);
    }

    /** Commits the assistant message of a tool round, its tool messages, then compacts. */
    method CommitToolRound(round: nat, m: Message) returns (failure: Option<Failure>)
      modifies this`world, this`messages
      ensures ToolRound(env, round, old(world), old(messages), m)
           == (match failure case None => RunGoesOn(world, messages)
                             case Some(f) => RunEnds(RunResult(world, messages, Failed(f), 1)))
    {
      hide RunTools;
      AppendMessage(m);
      failure := ExecuteAll(round, m.toolCalls);
      if failure.None? {
        failure := MaybeCompact(round);
      }
    }

    /** The same at the end of a streamed round. */
    method CommitStreamRound(round: nat, m: Message) returns (failure: Option<Failure>)
      modifies this`world, this`messages
      ensures StreamToolRound(env, round, old(world), old(messages), m)
           == (match failure case None => RunGoesOn(world, messages)
                             case Some(f) => RunEnds(RunResult(world, messages, Failed(f), 1)))
    {
      hide StreamTools;
      AppendMessage(m);
      failure := ForwardTools(round, m.toolCalls);
      if failure.None? {
        failure := MaybeCompact(round);
      }
    }

    method Run(input: string) returns (outcome: Outcome, modelCalls: nat)
      modifies this`world, this`messages
      ensures RunResult(world, messages, outcome, modelCalls)
           == RunOnce(env, maxToolRounds, old(world), old(messages), input)
    {
      hide ToolRound;
      ghost var result := RunOnce(env, maxToolRounds, world, messages, input);
      AppendMessage(UserMessage(input));
      var compactFailure := MaybeCompact(1);
      modelCalls := 0;
      if compactFailure.Some? {
        return Failed(compactFailure.value), 0;
      }
      var round: nat := 0;
      while true
        invariant result == Plus(RunLoop(env, maxToolRounds, round, world, messages), modelCalls)
        decreases Rounds(maxToolRounds - round)
      {
        var veto := Emit(BeforeModel(round + 1));
        if veto.Some? {
          return Failed(HookFailure(veto.value)), modelCalls;
        }
        var (w, reply) := env.generate(world, messages);
        world, modelCalls := w, modelCalls + 1;
        if reply.ModelFailed? {
          veto := Emit(AfterModelFailure(round + 1, Failure(ModelCategory, reply.text)));
          return Failed(if veto.Some? then HookFailure(veto.value) else Failure(ModelCategory, reply.text)), modelCalls;
        }
        veto := Emit(AfterModel(round + 1, reply.message));
        if veto.Some? {
          return Failed(HookFailure(veto.value)), modelCalls;
        }
        if reply.toolCalls == [] {
          AppendMessage(FillRole(reply.message));
          return Answered(FillRole(reply.message)), modelCalls;
        }
        if round >= maxToolRounds {
          return Failed(MAX_ROUNDS), modelCalls;
        }
        var failure := CommitToolRound(round + 1, FillRole(reply.message).(toolCalls := reply.toolCalls));
        if failure.Some? {
          return Failed(failure.value), modelCalls;
        }
        round := round + 1;
      }
    }

    /** Reads one round's events, forwarding them until the round ends. */
    method ReadRound(events: seq<StreamEvent>) returns (end: RoundEnd, sent: seq<StreamEvent>)
      ensures end == RoundOf(events, "") && sent == Forwarded(events)
    {
      sent := [];
      var content := "";
      var i := 0;
      while i < |events|
        invariant i <= |events|
        invariant RoundOf(events, "") == RoundOf(events[i..], content)
        invariant Forwarded(events) == sent + Forwarded(events[i..])
      {
        assert events[i..][0] == events[i] && events[i..][1..] == events[i + 1..];
        match events[i] {
          case Delta(text, calls) =>
            if calls != [] {
              return Broken(Failure(StreamingCategory, "agent: streaming tool calls unsupported")), sent;
            }
            content, sent := content + text, sent + [events[i]];
          case ThinkingDelta(_) => sent := sent + [events[i]];
          case ToolCallStart(_, _, _) => sent := sent + [events[i]];
          case ToolCallDone(_, _, _) => sent := sent + [events[i]];
          case Done(m) => return Finished(FillDone(m, content)), sent;
          case Error(f) => return Broken(Failure(ModelCategory, f.cause)), sent;
          case UnknownEvent => return Broken(Failure(StreamingCategory, "agent: unknown stream event type")), sent;
        }
        i := i + 1;
      }
      end := Broken(Failure(StreamingCategory, "agent: stream ended without done event"));
    }

    method ReportRoundFailure(round: nat, f: Failure) returns (reported: Failure)
      modifies this`world
      ensures (world, reported) == ReportFailure(env, round, old(world), f)
    {
      var veto := Emit(AfterModelFailure(round, f));
      reported := if veto.Some? then HookFailure(veto.value) else f;
    }

    method ForwardStreamRound(round: nat, events: seq<StreamEvent>)
      returns (outcome: Option<Outcome>, message: Message, sent: seq<StreamEvent>)
      modifies this`world, this`messages
      ensures ForwardRound(env, round, old(world), old(messages), events)
           == (match outcome
               case Some(o) => Over(StreamResult(RunResult(world, messages, o, 1), true, sent))
               case None => Calls(world, message, sent))
      ensures outcome.None? ==> messages == old(messages)
    {
      hide Forwarded, RoundOf;
      var end, forwarded := ReadRound(events);
      if end.Broken? {
        var f := ReportRoundFailure(round, end.failure);
        return Some(Failed(f)), UserMessage(""), forwarded + [Error(f)];
      }
      var veto := Emit(AfterModel(round, end.message));
      if veto.Some? {
        var f := HookFailure(veto.value);
        return Some(Failed(f)), end.message, forwarded + [Error(f)];
      }
      if end.message.toolCalls != [] {
        return None, end.message, forwarded;
      }
      AppendMessage(end.message);
      return Some(Answered(end.message)), end.message, forwarded + [Done(end.message)];
    }

    /** startStreamRound: the events of the round, or why it did not start. */
    method StartRound(round: nat) returns (start: StreamStart, failure: Failure, modelCalls: nat)
      modifies this`world
      ensures var (w1, veto) := env.hook(old(world), BeforeModel(round));
        if veto.Some? then world == w1 && start.StartFailed? && failure == HookFailure(veto.value) && modelCalls == 0 else
        var (w2, s) := env.stream(w1, messages);
        && modelCalls == 1 && start == s
        && (s.Started? ==> world == w2)
        && (s.StartFailed? ==> (world, failure) == ReportFailure(env, round, w2, Failure(ModelCategory, s.text)))
    {
      modelCalls, failure := 0, HookFailure("");
      var veto := Emit(BeforeModel(round));
      if veto.Some? {
        return StartFailed(""), HookFailure(veto.value), 0;
      }
      var (w, s) := env.stream(world, messages);
      world, start, modelCalls := w, s, 1;
      if s.StartFailed? {
        failure := ReportRoundFailure(round, Failure(ModelCategory, s.text));
      }
    }

    method RunStream(input: string) returns (outcome: Outcome, modelCalls: nat, channel: bool, sent: seq<StreamEvent>)
      modifies this`world, this`messages
      ensures StreamResult(RunResult(world, messages, outcome, modelCalls), channel, sent)
           == StreamOnce(env, maxToolRounds, old(world), old(messages), input)
    {
      hide StreamToolRound, ForwardRound, ReportFailure, HookFailure, UserMessage;
      ghost var result := StreamOnce(env, maxToolRounds, world, messages, input);
      AppendMessage(UserMessage(input));
      modelCalls, channel, sent := 0, false, [];
      var failure := MaybeCompact(1);
      if failure.Some? {
        return Failed(failure.value), 0, false, [];
      }
      var round: nat := 1;
      while true
        invariant round >= 1
        invariant result == PlusStream(sent, StreamLoop(env, maxToolRounds, round, world, messages), modelCalls)
        invariant round == 1 ==> sent == []
        decreases Rounds(maxToolRounds + 1 - round)
      {
        var start, startFailure, called := StartRound(round);
        modelCalls := modelCalls + called;
        if start.StartFailed? {
          channel := round > 1;
          return Failed(startFailure), modelCalls, channel, if channel then sent + [Error(startFailure)] else [];
        }
        channel := true;
        var ended, message, forwarded := ForwardStreamRound(round, start.events);
        sent := sent + forwarded;
        if ended.Some? {
          return ended.value, modelCalls, true, sent;
        }
        if round > maxToolRounds {
          return Failed(MAX_ROUNDS), modelCalls, true, sent + [Error(MAX_ROUNDS)];
        }
        failure := CommitStreamRound(round, message);
        if failure.Some? {
          return Failed(failure.value), modelCalls, true, sent + [Error(failure.value)];
        }
        round := round + 1;
      }
    }
  }
}
