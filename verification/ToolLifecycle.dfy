/** When a tool call reaches its tool, what it leaves in the history, and what a round of
    a streamed run is, read off the decisions, outcomes and events themselves. */
module ToolLifecycle {
  import opened Prelude
  import opened Core
  import opened AgentLoop

  // ----- what never reaches the tool

  type Tools<!W> = (W, ToolCall) -> (W, CallOutcome)
  type Approvals<!W> = (W, ToolCall) -> (W, Decision)

  /** An unknown tool or invalid arguments: nobody is asked and nothing is called. */
  lemma RejectedCallsGoNowhere<W>(env: Env<W>, approve: Approvals<W>, tools: Tools<W>, round: nat, w: W, call: ToolCall)
    requires call.name !in env.tools || env.validate(call).Some?
    ensures ExecuteTool(env.(approve := approve, call := tools), round, w, call) == ExecuteTool(env, round, w, call)
    ensures var e := ExecuteTool(env, round, w, call).1;
      && e.Fault?
      && (e.failure.category == (if call.name !in env.tools then ToolCategory else SchemaCategory) || e.failure.category == HookCategory)
  {
  }

  /** A call that its hooks or its approval do not let through never reaches the tool: the
      result and the world are the same whatever the tool does. */
  lemma UnapprovedCallsNeverRun<W>(env: Env<W>, tools: Tools<W>, round: nat, w: W, call: ToolCall)
    requires call.name in env.tools && env.validate(call).None?
    requires var (w1, veto) := env.hook(w, BeforeApproval(round, call)); veto.Some? || !env.approve(w1, call).1.Approve?
    ensures ExecuteTool(env.(call := tools), round, w, call) == ExecuteTool(env, round, w, call)
    ensures var e := ExecuteTool(env, round, w, call).1;
      e.Fault? && (e.failure.category == ApprovalCategory || e.failure.category == HookCategory)
  {
  }

  /** Nor does the approval hear of a call that the hook before it has rejected. */
  lemma VetoedCallsAreNotApproved<W>(env: Env<W>, approve: Approvals<W>, tools: Tools<W>, round: nat, w: W, call: ToolCall)
    requires call.name in env.tools && env.validate(call).None? && env.hook(w, BeforeApproval(round, call)).1.Some?
    ensures ExecuteTool(env.(approve := approve, call := tools), round, w, call) == ExecuteTool(env, round, w, call)
    ensures var (w1, veto) := env.hook(w, BeforeApproval(round, call));
      ExecuteTool(env, round, w, call) == (w1, Fault(Failure(HookCategory, veto.value)))
  {
  }

  /** The approval as its hook is shown it, whatever was decided. */
  predicate Shows(point: HookPoint, round: nat, call: ToolCall, decision: Decision) {
    && point.AfterApproval? && point.round == round && point.call == call && point.reason == decision.reason
    && (decision.Approve? ==> point.approved && point.error == None)
    && (decision.Deny? ==> !point.approved && point.error == Some(Failure(ApprovalCategory, decision.reason)))
    && (decision.ApprovalFailed? ==> point.approved == decision.approved && point.error == Some(Failure(ApprovalCategory, decision.text)))
  }

  /** A refused call is a failure of the approval's, which the after-tool hook sees last and
      may replace. */
  lemma RefusalsAreReported<W>(env: Env<W>, round: nat, w: W, call: ToolCall, point: HookPoint)
    requires call.name in env.tools && env.validate(call).None?
    requires var (w1, veto) := env.hook(w, BeforeApproval(round, call));
      veto.None? && !env.approve(w1, call).1.Approve? && Shows(point, round, call, env.approve(w1, call).1)
    ensures var w2 := env.approve(env.hook(w, BeforeApproval(round, call)).0, call).0;
      var (w3, veto3) := env.hook(w2, point);
      if veto3.Some? then ExecuteTool(env, round, w, call) == (w3, Fault(Failure(HookCategory, veto3.value))) else
      var (w4, veto4) := env.hook(w3, AfterTool(round, call, ToolResult("", "", "", map[]), point.error));
      ExecuteTool(env, round, w, call)
        == (w4, Fault(if veto4.Some? then Failure(HookCategory, veto4.value) else point.error.value))
  {
  }

  // ----- what reaches it

  /** The hooks and the approval let the call through, leaving this world for the tool. */
  ghost predicate LetsThrough<W>(env: Env<W>, round: nat, w: W, call: ToolCall, ready: W) {
    && call.name in env.tools && env.validate(call).None?
    && var (w1, veto1) := env.hook(w, BeforeApproval(round, call));
    var (w2, decision) := env.approve(w1, call);
    && veto1.None? && decision.Approve?
    && var (w3, veto3) := env.hook(w2, AfterApproval(round, call, true, decision.reason, None));
    var (w4, veto4) := env.hook(w3, BeforeTool(round, call));
    veto3.None? && veto4.None? && w4 == ready
  }

  /** The result as the caller gets it: the tool's own, under the call's id and name where
      the tool gave none. */
  ghost predicate IsResultOf(result: ToolResult, given: ToolResult, call: ToolCall) {
    && result.content == given.content && result.metadata == given.metadata
    && result.callId == (if given.callId == "" then call.id else given.callId)
    && result.name == (if given.name == "" then call.name else given.name)
  }

  /** What is wrong with a call that has been made, if anything. */
  function Complaint(outcome: CallOutcome, tooLarge: bool): Option<Failure> {
    match outcome
    case Returned(_) => if tooLarge then Some(Failure(ToolCategory, "agent: tool result too large")) else None
    case Threw(_, None, text) => Some(Failure(ToolCategory, text))
    case Threw(_, Some(category), text) => Some(Failure(category, text))
  }

  /** A call that is let through is made in that world; the after-tool hook sees its result
      and its complaint, and without either the result stands. */
  lemma ApprovedCallsRun<W>(env: Env<W>, round: nat, w: W, call: ToolCall, ready: W, result: ToolResult)
    requires LetsThrough(env, round, w, call, ready)
    requires IsResultOf(result, env.call(ready, call).1.result, call)
    ensures var (w5, outcome) := env.call(ready, call);
      var complaint := Complaint(outcome, env.tooLarge(result));
      var (w6, veto) := env.hook(w5, AfterTool(round, call, result, complaint));
      ExecuteTool(env, round, w, call)
        == (w6, if veto.Some? then Fault(Failure(HookCategory, veto.value))
                else if complaint.Some? then Fault(complaint.value) else Ran(result))
  {
    var given := env.call(ready, call).1.result;
    assert result == ToolResult(if given.callId == "" then call.id else given.callId,
      if given.name == "" then call.name else given.name, given.content, given.metadata);
  }

  /** A tool has run only if it is known, its arguments are valid, it was approved and all
      hooks before it accepted. */
  lemma OnlyApprovedCallsRun<W>(env: Env<W>, round: nat, w: W, call: ToolCall)
    requires ExecuteTool(env, round, w, call).1.Ran?
    ensures exists ready :: LetsThrough(env, round, w, call, ready)
  {
    var w1 := env.hook(w, BeforeApproval(round, call)).0;
    var (w2, decision) := env.approve(w1, call);
    var w3 := env.hook(w2, AfterApproval(round, call, true, decision.reason, None)).0;
    var ready := env.hook(w3, BeforeTool(round, call)).0;
    assert LetsThrough(env, round, w, call, ready);
  }

  // ----- a round of calls

  predicate EndsTheRun(f: Failure) { f.category == ApprovalCategory || f.category == HookCategory }

  lemma {:induction false} RunToolsSplits<W>(env: Env<W>, round: nat, w: W, calls: seq<ToolCall>, k: nat)
    requires k <= |calls|
    ensures var before := RunTools(env, round, w, calls[..k]);
      if before.failure.Some? then RunTools(env, round, w, calls) == before else
      var rest := RunTools(env, round, before.world, calls[k..]);
      RunTools(env, round, w, calls) == rest.(messages := before.messages + rest.messages)
    decreases k
  {
    hide ExecuteTool, Feedback, ToolMessage, Terminal;
    if k == 0 {
      assert calls[..0] == [] && calls[0..] == calls;
      var rest := RunTools(env, round, w, calls);
      assert [] + rest.messages == rest.messages;
    } else {
      var (w', e) := ExecuteTool(env, round, w, calls[0]);
      assert calls[..k][0] == calls[0] && calls[..k][1..] == calls[1..][..k - 1] && calls[1..][k - 1..] == calls[k..];
      RunToolsSplits(env, round, w', calls[1..], k - 1);
      var before, rest := RunTools(env, round, w', calls[1..][..k - 1]), RunTools(env, round, w', calls[1..]);
      var message := ToolMessage(if e.Ran? then e.result else Feedback(calls[0], e.failure));
      var after := RunTools(env, round, before.world, calls[k..]);
      assert [message] + (before.messages + after.messages) == [message] + before.messages + after.messages;
    }
  }

  /** A refused call ends its round: no tool message for it or for the calls after it, the
      failure is the approval's or a hook's, and no tool is called from there on. */
  lemma {:induction false} RefusedCallEndsRound<W>(env: Env<W>, tools: Tools<W>, round: nat, w: W, calls: seq<ToolCall>, k: nat)
    requires k < |calls| && RunTools(env, round, w, calls[..k]).failure.None?
    requires var w0 := RunTools(env, round, w, calls[..k]).world;
      && calls[k].name in env.tools && env.validate(calls[k]).None?
      && var (w1, veto) := env.hook(w0, BeforeApproval(round, calls[k]));
      veto.Some? || !env.approve(w1, calls[k]).1.Approve?
    ensures var before, r := RunTools(env, round, w, calls[..k]), RunTools(env, round, w, calls);
      && r.messages == before.messages
      && r.failure.Some? && EndsTheRun(r.failure.value)
      && RunTools(env.(call := tools), round, before.world, calls[k..]) == ToolsResult(r.world, [], r.failure)
  {
    hide ExecuteTool, Feedback, ToolMessage;
    RunToolsSplits(env, round, w, calls, k);
    var before := RunTools(env, round, w, calls[..k]);
    UnapprovedCallsNeverRun(env, tools, round, before.world, calls[k]);
    assert calls[k..][0] == calls[k];
    assert before.messages + [] == before.messages;
  }

  /** The tool message that a call leaves: its result, or what went wrong with it. */
  ghost predicate Tells(message: Message, call: ToolCall, e: Execution) {
    && message.role == Tool && message.toolCalls == []
    && match e
       case Ran(result) =>
         message.name == result.name && message.toolCallId == result.callId
         && message.content == result.content && message.metadata == result.metadata
       case Fault(failure) =>
         message.name == call.name && message.toolCallId == call.id && message.metadata == map[]
         && message.content == "Tool call failed: " + failure.cause + ". Fix the arguments or choose another approach."
  }

  /** Every other call leaves one message, and only approval and hook failures stop a round. */
  lemma {:induction false} OtherCallsAreTold<W>(env: Env<W>, round: nat, w: W, calls: seq<ToolCall>, k: nat)
    requires k < |calls| && RunTools(env, round, w, calls[..k]).failure.None?
    requires var e := ExecuteTool(env, round, RunTools(env, round, w, calls[..k]).world, calls[k]).1;
      e.Fault? ==> !EndsTheRun(e.failure)
    ensures var before, after := RunTools(env, round, w, calls[..k]), RunTools(env, round, w, calls[..k + 1]);
      var (w', e) := ExecuteTool(env, round, before.world, calls[k]);
      && after.failure.None? && after.world == w'
      && |after.messages| == |before.messages| + 1 && after.messages[..|before.messages|] == before.messages
      && Tells(after.messages[|before.messages|], calls[k], e)
  {
    hide ExecuteTool, RunTools, EndsTheRun, Tells;
    var upTo := calls[..k + 1];
    assert upTo[..k] == calls[..k] && upTo[k..] == [calls[k]];
    RunToolsSplits(env, round, w, upTo, k);
    var before := RunTools(env, round, w, calls[..k]);
    OneCallIsTold(env, round, before.world, calls[k]);
  }

  lemma OneCallIsTold<W>(env: Env<W>, round: nat, w: W, call: ToolCall)
    requires var e := ExecuteTool(env, round, w, call).1; e.Fault? ==> !EndsTheRun(e.failure)
    ensures var r := RunTools(env, round, w, [call]); var (w', e) := ExecuteTool(env, round, w, call);
      r.failure.None? && r.world == w' && |r.messages| == 1 && Tells(r.messages[0], call, e)
  {
    hide ExecuteTool;
    assert [call][1..] == [];
  }

  // ----- what a streamed round is

  /** An event that a round forwards and goes on from. */
  predicate IsPlain(e: StreamEvent) {
    (e.Delta? && e.calls == []) || e.ThinkingDelta? || e.ToolCallStart? || e.ToolCallDone?
  }

  /** How the first other event ends the round, after this text. */
  ghost predicate EndsRound(end: RoundEnd, e: StreamEvent, text: string) {
    match e
    case Done(m) =>
      end == Finished(m.(role := if m.role.Unset? then Assistant else m.role, content := if m.content == "" then text else m.content))
    case Error(f) => end == Broken(Failure(ModelCategory, f.cause))
    case _ => end.Broken? && end.failure.category == StreamingCategory
  }

  lemma {:induction false} TextOfPrefix(events: seq<StreamEvent>, n: nat)
    requires 0 < n <= |events|
    ensures DeltaText(events[..n]) == DeltaText(events[..1]) + DeltaText(events[1..][..n - 1])
  {
    var rest := events[1..];
    if n == 1 {
      assert rest[..0] == [];
      assert DeltaText(events[..1]) + "" == DeltaText(events[..1]);
    } else {
      TextOfPrefix(events, n - 1);
      assert events[..n][..n - 1] == events[..n - 1];
      assert rest[..n - 1][..n - 2] == rest[..n - 2];
      var last := if events[n - 1].Delta? then events[n - 1].delta else "";
      assert DeltaText(events[..n]) == DeltaText(events[..n - 1]) + last;
      assert DeltaText(rest[..n - 1]) == DeltaText(rest[..n - 2]) + last;
    }
  }

  lemma OneText(events: seq<StreamEvent>)
    requires events != []
    ensures DeltaText(events[..1]) == if events[0].Delta? then events[0].delta else ""
  {
    assert events[..1][..0] == [];
  }

  /** A round forwards its plain events; the first other one ends it, and a done message
      without content says what the deltas have spelled. */
  lemma {:induction false} RoundEndsAtFirstOther(events: seq<StreamEvent>, n: nat, content: string)
    requires n < |events| && !IsPlain(events[n]) && forall k :: 0 <= k < n ==> IsPlain(events[k])
    ensures Forwarded(events) == events[..n]
    ensures EndsRound(RoundOf(events, content), events[n], content + DeltaText(events[..n]))
    decreases n
  {
    hide DeltaText;
    if n == 0 {
      NoText();
      assert content + "" == content;
    } else {
      var rest := events[1..];
      var text := if events[0].Delta? then events[0].delta else "";
      OneText(events);
      TextOfPrefix(events, n);
      assert IsPlain(events[0]);
      RoundEndsAtFirstOther(rest, n - 1, content + text);
      assert content + text + DeltaText(rest[..n - 1]) == content + (text + DeltaText(rest[..n - 1]));
      assert content + "" == content;
      assert events[..n] == [events[0]] + rest[..n - 1];
    }
  }

  lemma NoText()
    ensures forall events: seq<StreamEvent> :: DeltaText(events[..0]) == ""
  {
    assert forall events: seq<StreamEvent> :: events[..0] == [];
  }

  /** Without any other event the round ends broken, everything forwarded. */
  lemma {:induction false} PlainRoundBreaks(events: seq<StreamEvent>, content: string)
    requires forall k :: 0 <= k < |events| ==> IsPlain(events[k])
    ensures Forwarded(events) == events
    ensures RoundOf(events, content).Broken? && RoundOf(events, content).failure.category == StreamingCategory
  {
    if events != [] {
      assert IsPlain(events[0]);
      PlainRoundBreaks(events[1..], if events[0].Delta? then content + events[0].delta else content);
      assert events == [events[0]] + events[1..];
    }
  }

  // ----- what a run keeps of its input and answer

  lemma ExtendsKeeps<W>(r: RunResult<W>, h: seq<Message>, blocks: seq<seq<Message>>, bound: nat)
    requires Extends(r, h, blocks, bound)
    ensures h <= r.history
    ensures r.outcome.Answered? ==>
      r.history != [] && r.history[|r.history| - 1] == r.outcome.message && r.outcome.message.role != Unset
  {
    hide IsBlock, IsBlockPrefix;
    assert r.history == h + (Flatten(blocks) + if r.outcome.Answered? then [r.outcome.message] else []);
  }

  /** With compaction off the history keeps what it had, then the input as a user message;
      an answer is the last message, with a role. */
  lemma {:induction false} RunKeepsInput<W(!new)>(env: Env<W>, maxRounds: int, w: W, h: seq<Message>, input: string)
    requires CompactionOff(env) && EchoesIds(env)
    ensures var r := RunOnce(env, maxRounds, w, h, input);
      && h + [Message(User, "", "", input, [], map[])] <= r.history
      && (r.outcome.Answered? ==>
        r.history != [] && r.history[|r.history| - 1] == r.outcome.message && r.outcome.message.role != Unset)
  {
    hide RunOnce, Extends, CompactionOff, EchoesIds;
    var blocks := RunExtendsHistory(env, maxRounds, w, h, input);
    ExtendsKeeps(RunOnce(env, maxRounds, w, h, input), h + [UserMessage(input)], blocks, Rounds(maxRounds));
  }

  /** A reply without calls is the answer: the message as it came, an assistant's if it
      says nothing else. */
  lemma ReplyIsAnswer<W>(env: Env<W>, maxRounds: int, round: nat, w: W, h: seq<Message>)
    requires env.hook(w, BeforeModel(round + 1)).1.None?
    requires var (w2, reply) := env.generate(env.hook(w, BeforeModel(round + 1)).0, h);
      reply.Reply? && reply.toolCalls == [] && env.hook(w2, AfterModel(round + 1, reply.message)).1.None?
    ensures var r := RunLoop(env, maxRounds, round, w, h);
      var m := env.generate(env.hook(w, BeforeModel(round + 1)).0, h).1.message;
      && r.outcome == Answered(m.(role := if m.role.Unset? then Assistant else m.role))
      && r.history == h + [r.outcome.message] && r.modelCalls == 1
  {
  }

  /** What a round's compaction leaves is what the next round starts from, also when it fails. */
  lemma CompactionDecides<W>(env: Env<W>, round: nat, w: W, h: seq<Message>, m: Message)
    requires RunTools(env, round, w, m.toolCalls).failure.None?
    ensures var tools := RunTools(env, round, w, m.toolCalls);
      var (w', compacted) := env.compact(tools.world, round, h + [m] + tools.messages);
      var step := ToolRound(env, round, w, h, m);
      && (compacted.Kept? ==> step == RunGoesOn(w', h + [m] + tools.messages))
      && (compacted.Compacted? ==> step == RunGoesOn(w', compacted.messages))
      && (compacted.CompactFailed? ==> step == RunEnds(RunResult(w', compacted.messages, Failed(compacted.failure), 1)))
  {
    hide RunTools;
  }
}
