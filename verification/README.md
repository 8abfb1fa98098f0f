# Verified model of the agent SDK

The SDK runs a tool-calling agent over language-model providers. This project models the parts of it
that carry state over many steps and proves what each part promises over all its runs: the agent loop,
the tool slots, the reliability wrapper, the stream decoders, the MCP request protocols, the schema
encoding and validation, and the session store. Every Dafny file stands for one component:

| file | component |
|---|---|
| `Core.dfy`, `Prelude.dfy`, `Decimal.dfy` | decoded JSON, messages and stream events; options; decimal counters |
| `AgentLoop.dfy` | `Run` and `RunStream`, the tool lifecycle, the history they commit |
| `ToolLifecycle.dfy` | when a call reaches its tool, what it leaves in the history, how a streamed round ends |
| `ToolSlots.dfy` | the per-tool concurrency slots |
| `Reliability.dfy` | the reliability wrapper's locked sections as functions, and its error classification |
| `BudgetLedger.dfy`, `RateLimiter.dfy`, `CircuitBreaker.dfy` | any interleaving of those sections |
| `ReliabilityRules.dfy` | what is retried, what usage costs, when exactly a limit refuses |
| `RetryLoop.dfy`, `ReliableModel.dfy` | one caller's `Generate` or `Stream`; the wrapper's mutable state |
| `EventStream.dfy` | the server-sent-events reader (WHATWG HTML Standard, section 9.2.6) |
| `Boundaries.dfy`, `GrowingValue.dfy`, `ProviderStream.dfy` | tool-call boundary events, ids sent in pieces, how a stream ends |
| `ChatStream.dfy` | the chat-completions stream decoder |
| `ResponsesStream.dfy` | the Responses API tool-call accumulator with its re-keying |
| `AnthropicStream.dfy` | Anthropic content blocks, whole and streamed |
| `AnthropicContent.dfy` | the blocks replayed later, the thinking shown, why a stream stopped |
| `StdioProtocol.dfy`, `SseCorrelation.dfy` | MCP request correlation over a subprocess and over an event stream |
| `ToolSchema.dfy`, `SchemaHash.dfy` | the typed schema, its canonical order and its hash pre-image |
| `SchemaValidation.dfy` | validation, JSON Schema printing, conversion from MCP schemas |
| `SchemaMeaning.dfy` | what each type accepts, what is printed, what the journey keeps |
| `SessionStore.dfy` | the in-memory session store and event log |
| `SessionContents.dfy` | what the store keeps of what it is given, and what it refuses |

How the model is built:

- An object that the source updates in place is a class with the same fields. Each of its methods is
  proved equal to a function of the old state, and the theorems are lemmas about those functions.
- A section that the source runs under a mutex is one atomic step. Concurrency is a sequence of steps
  in any order; channels, waiters and clocks are part of the state.
- Everything outside a component is a parameter: the model, the tools, hooks and approval of the agent
  are functions over a world of any type; JSON parsing of argument text, pattern matching and the
  outcome of an inner call are arbitrary functions; a body is its lines or decoded events and the way
  it ends.
- Costs are reals, times are integers, versions are 64-bit and wrap.

Main results:

- `Run` and `RunStream` leave the same history and world and end in the same outcome, for any history,
  input and round limit, when each stream's done message is what `Run` makes of the reply: its role
  filled in and the reply's own list of calls put in place of the message's. Approval, compaction and
  hooks are arbitrary, except that a hook must answer alike for a reply as it came and as it is
  committed, since the two implementations show it different ones. A reply that lists no calls must
  carry none in its message: `AgentLoop.StrayCallsDivide` shows that the two part ways otherwise.
- A tool call that its hooks and its approval do not let through never reaches the tool: result and
  world are the same whatever the tool would do. It ends its round without a tool message.
- The schema hash pre-image is uniquely decodable, so two descriptors hash the same bytes exactly when
  they are equal up to the order of `Required`. Enum and default values that JSON can write are
  recovered as they were, at any depth.
- The budget's counters always equal the sum of what the reservations are charged; the clamps at zero
  never act; an open circuit is quiet; a retry trace has one shape, and with no limit in the way a call
  is tried until an attempt decides it. Each limit refuses exactly when it is reached.
- Chat and Anthropic streams rebuild what the unfragmented message says, and every tool call is
  bracketed by one start and one done event. Thinking blocks with their signatures come back whole
  when a message is replayed. The Responses accumulator's re-keying is invisible: it emits what a
  ledger without keys emits, and it holds one call for each output exactly when no id comes late under
  a key that is not the output's own. Items that are no function calls never count.
- No MCP channel gets two messages, so no send blocks; an answer is one that the reader read, payload
  included, under the id of the request while that request was waiting; no request waits forever on a
  process that has exited or a stream that has closed; transient failures are retried to the full
  number of attempts and not beyond.
- Validation accepts exactly the values that satisfy the schema, and what it reports is a rule that the
  value breaks. A schema's journey through an MCP server only loosens it.
- Session logs are gap-free under unique ids, a poller sees each event once while the session is not
  deleted, and of two writers that present the same version one wins.

Where the code and a promise differ, the model follows the code and says exactly when the promise
holds:

- An Anthropic stream's message equals the whole response's exactly when no content block is without
  any key; text, tool calls and deltas agree in any case (`AnthropicStream.StreamingEqualsWhole`, with
  the input in `AnthropicStream.EmptyBlockIsDropped`). Tool inputs are assumed non-empty, see below.
- A Responses output whose item id arrives late splits in two unless that id is the very index key it
  already has (`ResponsesStream.OneCallEachUnlessSplit`, with the input in
  `ResponsesStream.LateIdSplitsAnOutput`).
- Deleting a session restarts its log, and a poller skips as many events of the new log as its last
  sequence says: a poll delivers the whole log exactly when the log is empty or the poller has seen
  nothing (`SessionStore.PollDeliversWholeLog`, with the input in `SessionStore.DeletionHidesAnEvent`).
- `SessionStore.OneWriterWins` says how many operations it takes for a wrapped version to match again.

## Model

| member | source | states |
|---|---|---|
| AgentLoop.RunStreamAgreesWithRun | agent.go:376-603 | when every stream's done message, its content filled from the deltas, is what Run makes of the reply (role filled in, the reply's own calls put in place) and hooks answer alike for both forms of it, RunStream and Run end with the same history, world, outcome and number of model calls; hook rejections, approval denials, compaction and the round limit included |
| AgentLoop.LoopsAgree | agent.go:411-508 | from any round on, the forwarding loop and the waiting loop commit the same history and outcome |
| AgentLoop.RoundsAgree | agent.go:705-899 | one forwarded round and one awaited round have the same effect, although they count rounds from 1 and from 0, normalise the message in different places and run their own tool loops |
| AgentLoop.ToolLoopsAgree | agent.go:493-503 | the loop that Run writes over the calls of a round and the one RunStream writes (agent.go:733-747) leave the same world and history and end in the same failure |
| AgentLoop.StrayCallsDivide | agent.go:469-476 | a reply that lists no calls but carries some in its message is an answer to Run and a tool round to RunStream |
| AgentLoop.RunExtendsHistory | agent.go:394-508 | with compaction off a run adds the user message, at most max(MaxToolRounds, 0) blocks and the answer; only an approval or hook failure leaves the last block a prefix; model calls are at most one more than that |
| AgentLoop.LoopExtends | agent.go:411-508 | the same for the loop from any round on |
| AgentLoop.ToolsAnswerInOrder | agent.go:485-503 | tool messages answer the calls in order, each under its call's id, up to the first terminal failure |
| AgentLoop.StreamEndsOnce | agent.go:514-603 | once RunStream has returned a channel, the caller receives exactly one final event, last, and it is a done event exactly when that message was committed |
| AgentLoop.RoundEndsOnce | agent.go:705-764 | a round that goes on has sent nothing final and is within the limit |
| AgentLoop.ForwardedNeverEnds | agent.go:766-899 | what is forwarded before a round's end is never final |
| AgentLoop.Agent.Execute | tools.go:20-226 | runs one tool call with every hook, approval and result check in the order of the source; each hook sees the round, the call, the decision, the result and the error there is |
| AgentLoop.Agent.FailToolCall | tools.go:228-247 | the after-tool hook sees a tool failure and may replace it |
| AgentLoop.Agent.ExecuteAll | agent.go:485-503 | Run's loop commits one tool message per call, feedback included, up to a terminal failure |
| AgentLoop.Agent.CommitToolRound | agent.go:478-507 | commits the assistant message and its tool messages, then compacts; a compaction that fails may have replaced the history |
| AgentLoop.Agent.ForwardTools | agent.go:733-747 | RunStream's loop over the calls of a round, appending to the history as it goes |
| AgentLoop.Agent.CommitStreamRound | agent.go:732-751 | the end of a streamed tool round: the message, its tool messages, compaction |
| AgentLoop.Agent.MaybeCompact | compact.go:45-87 | leaves the history as the compaction left it, also when it fails after replacing the messages |
| AgentLoop.Agent.Run | agent.go:376-509 | the world, history, outcome and number of model calls are those of the loop of rounds that the agreement theorem is about |
| AgentLoop.Agent.ReadRound | agent.go:766-899 | what a round forwards and how it ends, for any sequence of events |
| AgentLoop.Agent.ForwardStreamRound | agent.go:766-899 | forwards one round; a final answer is committed, a tool round is left to the loop |
| AgentLoop.Agent.StartRound | agent.go:621-703 | starts a round, the before-model hook first |
| AgentLoop.Agent.RunStream | agent.go:514-764 | the same for the streamed run, with the events that the caller receives and whether a channel was returned |
| ToolLifecycle.UnapprovedCallsNeverRun | tools.go:66-154 | a call that the hook before approval rejects or that is not approved ends in an approval or hook failure, and its result and the world are the same whatever the tool would do |
| ToolLifecycle.RejectedCallsGoNowhere | tools.go:34-63 | an unknown tool or invalid arguments fail as a tool or schema failure, or a hook's, and leave the same whatever approval and tool would do |
| ToolLifecycle.VetoedCallsAreNotApproved | tools.go:66-80 | a call rejected by the hook before approval is never shown to the approval |
| ToolLifecycle.RefusalsAreReported | tools.go:81-143 | a refusal is shown to the approval hook with its decision and reason and to the after-tool hook with its error, each of which may replace the failure |
| ToolLifecycle.ApprovedCallsRun | tools.go:163-226 | a call let through is made once, and its result, under the call's id and name where it has none, stands unless the tool failed, the result is too large or a hook objects |
| ToolLifecycle.OnlyApprovedCallsRun | tools.go:20-226 | a result means that the tool is known, the arguments are valid, the approval approved and every hook before the tool accepted |
| ToolLifecycle.RefusedCallEndsRound | agent.go:485-503 | wherever in a round a call is refused, the round ends with the messages before it, an approval or hook failure, and no tool called from there on |
| ToolLifecycle.OtherCallsAreTold | tools.go:249-269 | every other call leaves one tool message, its result or a feedback text with the cause, and only approval and hook failures stop a round |
| ToolLifecycle.RunToolsSplits | agent.go:485-503 | the calls of a round can be cut anywhere: the second part goes on from the world the first left |
| ToolLifecycle.RoundEndsAtFirstOther | agent.go:766-899 | a streamed round forwards its deltas and boundary events up to the first other event, which ends it; a done message without content says what the deltas spelled |
| ToolLifecycle.PlainRoundBreaks | agent.go:766-899 | a round without any other event forwards everything and fails |
| ToolLifecycle.RunKeepsInput | agent.go:394-476 | with compaction off the history keeps what it had and then the input as a user message, and an answer is its last message, with a role |
| ToolLifecycle.ReplyIsAnswer | agent.go:469-476 | a reply without calls is committed as it came, an assistant's if it names no role, and ends the run |
| ToolLifecycle.CompactionDecides | compact.go:9-87 | the next round starts from what compaction left, and a failing compaction ends the run with the history it left |
| ToolSlots.SlotsStayBalanced | tools.go:334-358 | after any interleaving the counter of each tool is the number of its calls that hold a slot |
| ToolSlots.NeverOverLimit | tools.go:334-358 | no more calls of a tool hold a slot at once than the largest limit asked for; calls that ask for no limit hold none |
| ToolSlots.RunningAfterStop | tools.go:334-358 | ending one call lowers the number running of its own tool only |
| ToolSlots.GrantedExactly | tools.go:334-358 | after any interleaving a call that asks for a limit gets a slot exactly when fewer of its tool's calls hold one |
| ToolSlots.Slots.Acquire | tools.go:334-358 | grants a slot exactly when the counter is below the limit, and counts it |
| ToolSlots.Slots.Release | tools.go:334-358 | gives the slot back and forgets a counter that reaches zero |
| BudgetLedger.BudgetIsConserved | reliability.go:872-941 | in every interleaving the counters equal the sum over reservations of nothing if released, actual usage if reconciled and the estimate otherwise, and exceed the limits by at most the overshoot of reconciled calls |
| BudgetLedger.StepKeepsBooks | reliability.go:872-941 | each locked section keeps the books |
| BudgetLedger.ReserveKeepsBooks | reliability.go:872-899 | an accepted reservation stays within the limits and overshoots nothing |
| BudgetLedger.ReleaseIsExact | reliability.go:901-916 | a release takes back exactly the estimate: the clamp at zero does not act |
| BudgetLedger.ReconcileIsExact | reliability.go:918-941 | a reconcile trades exactly the estimate for the usage: the clamp at zero does not act |
| BudgetLedger.ChargeIsPartOfTotal | reliability.go:901-916 | what a reservation is charged is contained in the counters |
| RateLimiter.WindowBound | reliability.go:750-766 | each internal window admits at most rateLimit calls, whatever the clock does |
| RateLimiter.IntervalBound | reliability.go:750-766 | for non-decreasing times, any half-open interval of one window's length admits at most 2 * rateLimit calls |
| RateLimiter.StaysGrouped | reliability.go:750-766 | admissions fall into consecutive windows, at most rateLimit in each |
| RateLimiter.StaysTimely | reliability.go:750-766 | windows are at least one interval apart when time does not run backwards |
| CircuitBreaker.BreakerCountsFailures | reliability.go:768-862 | circuitFailures counts failures since the last success or expiry, and circuitOpenedUntil is set exactly when that count has reached the threshold |
| RetryLoop.TraceIsWellShaped | reliability.go:315-465 | every trace is (start, failure, retry)* and one ending; inner calls equal the start events and never exceed maxAttempts |
| RetryLoop.CallIsCharged | reliability.go:315-466 | a call is charged its estimate once per started attempt, and a completed generate call trades the last for its usage |
| RetryLoop.TryCharges | reliability.go:559-604 | the same for one attempt, rejected attempts being charged nothing |
| RetryLoop.OpenCircuitIsQuiet | reliability.go:559-569 | for one caller, no inner call starts between an opening of the circuit and the end of its cooldown, over any sequence of calls |
| RetryLoop.OnlyRetryableErrorsCount | reliability.go:606-850 | the two separately written classifiers agree: an error is retried exactly when the context lives and the error would count against the circuit |
| ReliabilityRules.TriedUntilDecided | reliability.go:326-385 | with no limit in the way a call is tried until an attempt completes, fails for good or is the last allowed, not once less and not once more, and ends as that attempt does |
| ReliabilityRules.RefusedOnlyWhenFull | reliability.go:750-766 | for any request times, a request is admitted at its own time or turned away while a window stands that has admitted its full number |
| ReliabilityRules.OpenExactly | reliability.go:768-862 | in any interleaving the circuit is open exactly while the cooldown lasts after enough failures since the last success or expiry |
| ReliabilityRules.ReservedExactly | reliability.go:872-899 | a reservation is refused exactly when it would take an active budget over a limit; an accepted one is charged its estimate |
| ReliabilityRules.EndingsAreRecorded | reliability.go:346-372 | a completed attempt closes the circuit, a final failure is counted exactly when its error is the model's, a retried one leaves the circuit alone |
| ReliabilityRules.ChecksInOrder | reliability.go:559-604 | circuit, budget and rate decide in that order what an attempt meets |
| ReliabilityRules.RetryTable | reliability.go:606-639 | ended contexts, cancellations and other components' errors are never retried; then the status decides, then the subcategory, then whether it was a timeout |
| ReliabilityRules.CircuitTable | reliability.go:796-850 | the circuit counts what would be retried under a living context unless the caller's own context failed |
| ReliabilityRules.UsageIsPriced | reliability.go:996-1018 | input and output are each charged at their own price per thousand tokens, a bare total at the dearer |
| ReliabilityRules.ChargedAsReported | reliability.go:918-941 | a call is charged its total, else what input and output add up to, else its estimate; a zero cost leaves the estimated one |
| ReliabilityRules.EstimateIsExactForInput | reliability.go:872-941 | a call that reports just the input it was estimated at is charged just its estimate |
| ReliabilityRules.NormalizedConfig | reliability.go:258-298 | a limit counts only when both halves are set, valid settings are kept, and normalising twice changes nothing more |
| ReliableModel.Model.constructor | reliability.go:101-136 | starts with nothing used and the options normalised |
| ReliableModel.Model.ReserveBudget | reliability.go:872-899 | reserves exactly when the estimate fits |
| ReliableModel.Model.Release | reliability.go:901-916 | releases the reservation it is given |
| ReliableModel.Model.Reconcile | reliability.go:918-941 | reconciles the reservation it is given with the reported usage |
| ReliableModel.Model.AllowRate | reliability.go:750-766 | admits as the fixed window allows and advances the window |
| ReliableModel.Model.CircuitIsOpen | reliability.go:768-784 | refuses while open and resets an expired circuit |
| ReliableModel.Model.RecordCircuitSuccess | reliability.go:786-794 | a success closes the circuit and clears its count |
| ReliableModel.Model.RecordCircuitAttemptFailure | reliability.go:796-862 | counts a failure that is the model's own and opens the circuit at the threshold |
| ReliableModel.Model.BeginAttempt | reliability.go:559-604 | checks circuit, budget and rate in that order and releases the reservation on a rate rejection |
| ReliableModel.Model.TryOnce | reliability.go:326-385 | one attempt leaves the books, window, breaker and clock that the retry theorems are about, and either ends with its events or asks for a retry |
| ReliableModel.Model.Call | reliability.go:315-466 | a whole call leaves the state and emits the trace that the shape, charge and quietness theorems are about |
| EventStream.ReadUndoesRender | internal/providers/sse/sse.go:21-76 | reading a rendered list of events, its lines ended by any mix of LF and CRLF, handles exactly those events in order |
| EventStream.NoiseIsIgnored | internal/providers/sse/sse.go:50-65 | a comment or an unknown field anywhere changes nothing |
| EventStream.ExtraBlankIsIgnored | internal/providers/sse/sse.go:27-49 | a further blank line between events changes nothing |
| EventStream.ScanUndoesTermination | internal/providers/sse/sse.go:22-43 | splitting a body into lines undoes joining them |
| EventStream.JoinUndoesSplit | internal/providers/sse/sse.go:31 | joining the data lines restores the data |
| EventStream.LastLineNeedsNoEnd | internal/providers/sse/sse.go:22-43 | a last line without a terminator is still a line |
| EventStream.FieldCuts | internal/providers/sse/sse.go:57-63 | a line is cut at its first colon, one space after it is dropped and any other kept, and a line without a colon has no value |
| EventStream.LinesFeed | internal/providers/sse/sse.go:57-69 | event lines name the frame and data lines add up, with a space after the colon or without, with a value or without |
| EventStream.FinalBlankIsOptional | internal/providers/sse/sse.go:71-76 | the blank line after the last event may be missing |
| EventStream.AheadIsParse | internal/providers/sse/sse.go:40-76 | a body that ends cleanly yields all its events, one that breaks off those whose blank line has come |
| EventStream.ReadCollects | internal/providers/sse/sse.go:21-76 | a handler that stops at the n-th event is given the first n events of the body in order, one that never stops all of them |
| EventStream.Read | internal/providers/sse/sse.go:21-76 | hands over each event as its frame completes, stops when the handler asks, and drops the last frame of a body that breaks off |
| GrowingValue.PrefixesRebuild | internal/providers/openai/stream.go:353-367 | folding any prefixes of a value, repeated and in any order, gives the value exactly when one of them is the whole of it |
| GrowingValue.PiecesJoin | internal/providers/openai/stream.go:353-367 | pieces of which none continues or repeats what came before are joined |
| Boundaries.BracketGrows | internal/providers/openai/stream.go:260-304 | a start for a new call, or a done for a started one, keeps each call bracketed once |
| Boundaries.RenamedStaysBracketed | internal/providers/openai/stream.go:306-320 | rewriting ids and names keeps the bracketing |
| Boundaries.BracketMentions | internal/providers/openai/stream.go:306-320 | boundary events mention started calls only |
| ChatStream.DoneReportsEverything | internal/providers/openai/stream.go:168-340 | at the done marker the caller has all deltas, then each call started and done once under its final id and name, then one message with all text and all calls in first-seen order; or one decode error if an argument text is not an object |
| ChatStream.StreamEndsOnce | internal/providers/openai/stream.go:168-243 | for every chunk sequence, exactly one final event, last, unless reading ends in a context error before a final event; a done event's content is what the deltas spell |
| ChatStream.StopsSayWhy | internal/providers/openai/stream.go:204-243 | an undecodable payload, a provider error and each way the body can end send their own error after the deltas |
| ChatStream.FinishReasonEndsCalls | internal/providers/openai/stream.go:214-219 | calls start as soon as they are seen, and a finish reason ends all those seen so far |
| ChatStream.InterleavingIsIrrelevant | internal/providers/openai/stream.go:260-340 | how fragments of different calls interleave does not change the calls |
| ChatStream.IdsReassemble | internal/providers/openai/stream.go:260-273 | a call's id is rebuilt from repeated or cumulative pieces exactly when one of them is the whole id; its name likewise |
| ChatStream.AddAllReflects | internal/providers/openai/stream.go:260-288 | after any fragments the table holds, per index, what that index's own fragments add up to |
| ChatStream.DoneAllReflects | internal/providers/openai/stream.go:290-304 | doneEvents leaves every started call done, once |
| ChatStream.FirstSeenIsExact | internal/providers/openai/stream.go:275-288 | the order lists exactly the indexes seen, without repetition |
| ChatStream.FinalCallsAre | internal/providers/openai/stream.go:322-340 | the calls are those of the indexes in order, and are missing exactly when some argument text does not parse |
| ChatStream.FinishReports | internal/providers/openai/stream.go:181-202 | what the done marker adds to the deltas makes the stream a complete report, or is one decode error |
| ChatStream.ToolCalls.Add | internal/providers/openai/stream.go:260-288 | merges fragments in order and starts each index once |
| ChatStream.ToolCalls.DoneEvents | internal/providers/openai/stream.go:290-304 | one done event for each call not yet done |
| ChatStream.ToolCalls.FinalBoundaryEvents | internal/providers/openai/stream.go:306-320 | boundary events under final ids and names |
| ChatStream.ToolCalls.Calls | internal/providers/openai/stream.go:322-340 | the finished calls, or failure |
| ChatStream.ReadChunk | internal/providers/openai/stream.go:211-230 | choices are read in order: fragments merged, calls finished on a finish reason, text sent and kept |
| ChatStream.Stream | internal/providers/openai/stream.go:168-243 | for any payloads and any ending of the body, sends exactly what the two theorems above describe |
| ResponsesStream.RunMatches | internal/providers/openai/stream.go:482-592 | if ids agree, coming late only as the index key, the keyed accumulator is at every moment a re-keyed ledger of the outputs and has emitted the same events |
| ResponsesStream.ApplyMatches | internal/providers/openai/stream.go:482-563 | the same for one event, re-keying included |
| ResponsesStream.EveryCallIsReportedOnce | internal/providers/openai/stream.go:482-599 | order has no duplicates and equals the key set, each call sits under its own key and is made of its own output's events, and completion leaves each output with exactly one start before exactly one done |
| ResponsesStream.CompletedCalls | internal/providers/openai/stream.go:601-619 | the decoded calls in first-seen order, missing exactly when some argument text does not parse |
| ResponsesStream.IdleEventsAreIgnored | internal/providers/openai/stream.go:482-506 | items that are no function calls and empty deltas change nothing, wherever they are: the run without them leaves the same table and emits the same events |
| ResponsesStream.SeenExactly | internal/providers/openai/stream.go:482-514 | the outputs seen are exactly those of a function-call item, a non-empty delta or a done event |
| ResponsesStream.SeenInOrder | internal/providers/openai/stream.go:556-560 | outputs are listed once, in the order first seen |
| ResponsesStream.CallIsNamedByItems | internal/providers/openai/stream.go:482-498 | a call's id and name are what the pieces in its items fold to |
| ResponsesStream.ArgumentsAreLastText | internal/providers/openai/stream.go:493-514 | a call's arguments are the last whole text given and the deltas after it |
| ResponsesStream.ArgumentsAreDeltas | internal/providers/openai/stream.go:500-506 | or its deltas joined, if no event gives the whole text |
| ResponsesStream.ReportedAsTheyCome | internal/providers/openai/stream.go:482-579 | before completion an output has been started exactly when a function-call item or a done event for it has come, and finished exactly when a done event has |
| ResponsesStream.EmittedUnderOwnName | internal/providers/openai/stream.go:565-579 | what an event makes the accumulator emit is about its own output, under the id and name known by then |
| ResponsesStream.CompletedUnderFinalName | internal/providers/openai/stream.go:581-592 | what completion emits is about outputs seen, under their final ids and names |
| ResponsesStream.ItemNamesItself | internal/providers/openai/stream.go:486-488 | an item that comes under no id is filed under its own |
| ResponsesStream.SteadyStreamsAgree | internal/providers/openai/stream.go:516-563 | a stream that names each output the same way from its first event on, or never, meets the condition |
| ResponsesStream.OneCallEachUnlessSplit | internal/providers/openai/stream.go:516-563 | for every stream whose ids only grow, agree with the item's own and use no key of another output, but may come late: the table is well kept with one call per output, made of its own events, exactly when each late id is the index key the output already has |
| ResponsesStream.SplitsLengthenOrder | internal/providers/openai/stream.go:516-563 | the order is longer than the list of outputs exactly when some output has split |
| ResponsesStream.LateIdSplits | internal/providers/openai/stream.go:516-563 | for any table, an event with a late id appends that id to the order and leaves the index key in it |
| ResponsesStream.RunIsBounded | internal/providers/openai/stream.go:516-563 | split or not, the table holds only keys that its outputs have used, knows each output's last id, and orders at least one key per output, one more after a split |
| ResponsesStream.LateKeyMatches | internal/providers/openai/stream.go:523-562 | a late id that equals the index key changes no key |
| ResponsesStream.LateIdSplitsAnOutput | internal/providers/openai/stream.go:516-563 | the input: argument text without an id, then an id, leaves two calls for one output |
| ResponsesStream.IndexKeysDiffer | internal/providers/openai/stream.go:527-529 | generated keys of different outputs differ |
| ResponsesStream.RenamedCallMatches | internal/providers/openai/stream.go:530-552 | an id that has grown moves the call, its flags and its place in the order |
| ResponsesStream.TrackBrackets | internal/providers/openai/stream.go:565-579 | start and done events bracket each output at every moment |
| ResponsesStream.LedgerGathers | internal/providers/openai/stream.go:482-514 | an output's entry depends on its own events only |
| ResponsesStream.ToolCalls.Ensure | internal/providers/openai/stream.go:516-563 | finds, creates or re-keys the call |
| ResponsesStream.ToolCalls.RenameInOrder | internal/providers/openai/stream.go:543-548 | replaces the first occurrence of the old key |
| ResponsesStream.ToolCalls.StartEvent | internal/providers/openai/stream.go:565-571 | one start event under the call's own key |
| ResponsesStream.ToolCalls.DoneEvent | internal/providers/openai/stream.go:573-579 | one done event under the call's own key |
| ResponsesStream.ToolCalls.AddItem | internal/providers/openai/stream.go:482-498 | fills a function-call item and starts it |
| ResponsesStream.ToolCalls.AppendArguments | internal/providers/openai/stream.go:500-506 | appends a non-empty argument fragment |
| ResponsesStream.ToolCalls.SetArguments | internal/providers/openai/stream.go:508-514 | replaces the arguments, starts and finishes the call |
| ResponsesStream.ToolCalls.DoneEvents | internal/providers/openai/stream.go:581-592 | starts and finishes what is left |
| ResponsesStream.ToolCalls.FinishedCalls | internal/providers/openai/stream.go:601-619 | the finished calls, or failure |
| AnthropicStream.StreamingEqualsWhole | internal/providers/anthropic/stream.go:106-397 | however the blocks of a response are cut into text, thinking, signature and input fragments, one done event ends the stream, the deltas spell its content, and its message is the whole response's with the blocks without any key missing from the raw content; so it is the whole response's message exactly when there is no such block |
| AnthropicStream.StreamKeepsBlocks | internal/providers/anthropic/stream.go:106-397 | the done message of a faithful stream has the text and the calls that the raw blocks say, and keeps every block that has a key, whole and in order |
| AnthropicContent.StreamReplaysBlocks | internal/providers/anthropic/anthropic.go:294-320 | what a later request replays of a streamed message is exactly the blocks that have a key, thinking and signatures included |
| AnthropicContent.KeptBlocksReplay | internal/providers/anthropic/anthropic.go:294-320 | the same for the blocks of a whole response |
| AnthropicContent.ThinkingIsSpelled | internal/providers/anthropic/stream.go:130-159 | the thinking deltas of a faithful stream spell what its thinking blocks say |
| AnthropicContent.ThoughtsAreSent | internal/providers/anthropic/stream.go:130-159 | for any events, the thinking shown is that of thinking blocks as they start and of the thinking parts, in order |
| AnthropicContent.ToolEventsAreOwn | internal/providers/anthropic/stream.go:130-159 | the calls announced are those of the tool blocks, each under its own index, id and name |
| AnthropicContent.DoneExactlyIfInputsRead | internal/providers/anthropic/stream.go:165-184 | for any events before it, the stop event ends in a done event exactly when every tool input is an object; otherwise in a decode error without any boundary event |
| AnthropicContent.InputPartsJoin | internal/providers/anthropic/stream.go:271-284 | the input held for an index is its parts joined, whatever else is streamed |
| AnthropicContent.PartsTypeBlocks | internal/providers/anthropic/stream.go:247-269 | a part for an index without a block, or with one that has no type, makes it a block of the part's kind |
| AnthropicContent.StopsSayWhy | internal/providers/anthropic/stream.go:113-200 | an undecodable event or block, a provider error and each way the body can end send their own error after what was sent |
| AnthropicStream.ToolsAreBracketed | internal/providers/anthropic/stream.go:130-184 | right before the done event come one start and one done event for each tool call of the response, in order |
| AnthropicStream.SentIsFinished | internal/providers/anthropic/stream.go:165-184 | a faithful stream is the deltas, the boundary events and the done event over the blocks that have a key, and nothing that comes after is read |
| AnthropicStream.StreamEndsOnce | internal/providers/anthropic/stream.go:106-200 | for any events, exactly one final event, last, unless reading ends in a context error before a final event; a done event's content is what the deltas spell |
| AnthropicStream.EmptyBlockIsDropped | internal/providers/anthropic/stream.go:237-245 | the input: a single block without any key is in the whole response's raw content and not in the stream's |
| AnthropicStream.EmptyPieceKeeps | internal/providers/anthropic/stream.go:221-245 | the events of a block without any key change nothing |
| AnthropicStream.EmptyTogether | internal/providers/anthropic/stream.go:221-245 | only a block without any key starts without any key, and it has no fragments |
| AnthropicStream.KeptSaysTheSame | internal/providers/anthropic/anthropic.go:347-370 | blocks without any key carry no text, no tool call and no boundary event |
| AnthropicStream.MetadataCounts | internal/providers/anthropic/anthropic.go:371-376 | raw content of different lengths differs |
| AnthropicStream.PieceReads | internal/providers/anthropic/stream.go:130-159 | one block's events leave the block behind, add its text, and bracket it if it is a tool call |
| AnthropicStream.PartsExtend | internal/providers/anthropic/stream.go:145-155 | fragments extend their own block and nothing else |
| AnthropicStream.ResolveIsWhole | internal/providers/anthropic/stream.go:286-346 | inputs are filled in and the calls are those of the whole blocks, in index order |
| AnthropicStream.AscendingSorts | internal/providers/anthropic/stream.go:290-294 | the sorted indexes are the one ascending list of them |
| AnthropicStream.BoundaryBrackets | internal/providers/anthropic/stream.go:130-159 | each tool block is started and done once |
| AnthropicStream.ModelResponse | internal/providers/anthropic/anthropic.go:343-384 | refused exactly when a block is not an object of the right field types; otherwise the content is the texts of text blocks joined, the calls are those of tool blocks with their ids, names and inputs, and the metadata keeps every block with all its fields, in order |
| AnthropicStream.ContentBlocks.Set | internal/providers/anthropic/stream.go:237-245 | stores a non-empty block |
| AnthropicStream.ContentBlocks.Ensure | internal/providers/anthropic/stream.go:256-269 | finds or creates a typed block |
| AnthropicStream.ContentBlocks.AppendString | internal/providers/anthropic/stream.go:247-254 | appends to one key of a block |
| AnthropicStream.ContentBlocks.AppendPartialJSON | internal/providers/anthropic/stream.go:271-284 | appends to a block's input text |
| AnthropicStream.ContentBlocks.ToolCalls | internal/providers/anthropic/stream.go:286-346 | fills in inputs and lists the calls in index order, up to a failing input |
| AnthropicStream.ContentBlocks.Content | internal/providers/anthropic/stream.go:383-397 | the blocks in index order |
| AnthropicStream.Stream | internal/providers/anthropic/stream.go:106-200 | for any events and any ending of the body, sends exactly what the theorems above describe |
| StdioProtocol.NoSendBlocks | internal/mcp/stdio/stdio.go:399-445 | in every interleaving no channel gets more than one message, so no send on a channel of capacity one blocks |
| StdioProtocol.AnswersCarryOwnId | internal/mcp/stdio/stdio.go:320-425 | a delivered response carries the requester's own id (JSON-RPC 2.0, section 5) |
| StdioProtocol.AnswersWereRead | internal/mcp/stdio/stdio.go:399-420 | a returned response is one the scanning reader read, payload included, under the request's own id after the request had entered and while it was the one waiting there |
| StdioProtocol.FailuresHaveACause | internal/mcp/stdio/stdio.go:420-445 | a returned failure means that the reader stopped or the exit was noticed while the request was waiting |
| StdioProtocol.NoAnswerHasACause | internal/mcp/stdio/stdio.go:320-351 | a request that returns without an answer was refused when it entered, could not be written or had its context end |
| StdioProtocol.NoEntryAfterClose | internal/mcp/stdio/stdio.go:325-336 | after Close, or once the exit has been noticed, no request is registered |
| StdioProtocol.ReceiveReturnsTheMessage | internal/mcp/stdio/stdio.go:348-371 | a request that receives returns what is on its channel |
| StdioProtocol.NothingPendsAfterWait | internal/mcp/stdio/stdio.go:427-451 | once the process waiter has finished, the pending table is empty forever |
| StdioProtocol.NobodyWaitsForever | internal/mcp/stdio/stdio.go:427-445 | once the waiter has finished and the reader's hands are empty, every request still waiting has its message |
| StdioProtocol.InvAlways | internal/mcp/stdio/stdio.go:320-451 | the pending table, the duties of reader and waiter and the callers' states agree after every step |
| StdioProtocol.Client.NextId | internal/mcp/stdio/stdio.go:320-322 | every request gets the next number of a counter, so no two share an id |
| StdioProtocol.Client.Register | internal/mcp/stdio/stdio.go:325-336 | registers unless the client is closed or the process is done |
| StdioProtocol.Client.RemovePending | internal/mcp/stdio/stdio.go:447-451 | forgets one request |
| StdioProtocol.Client.Claim | internal/mcp/stdio/stdio.go:399-425 | takes the entry a response belongs to, at most once |
| StdioProtocol.Client.TakeAll | internal/mcp/stdio/stdio.go:437-445 | takes every waiting entry |
| StdioProtocol.Client.ProcessExited | internal/mcp/stdio/stdio.go:427-435 | marks the process done |
| StdioProtocol.Client.Close | internal/mcp/stdio/stdio.go:173-199 | refuses later requests |
| SseCorrelation.OneAnswerPerChannel | internal/mcp/http.go:378-453 | each registered channel gets at most one message, the answer to its own request or a failure, and the pending table empties once |
| SseCorrelation.EntryIsCurrentAttempt | internal/mcp/http.go:160-240 | across the retries of a request its pending entry is the current attempt's channel |
| SseCorrelation.AttemptsAreBounded | internal/mcp/http.go:160-182 | tools/call is attempted once and any other request at most three times, each attempt with a channel of its own |
| SseCorrelation.TransientFailuresAreRetried | internal/mcp/http.go:160-182 | a request that met only transient failures and ends without an answer has made its full number of attempts, one for tools/call and three otherwise |
| SseCorrelation.DecidedRequestsStop | internal/mcp/http.go:160-182 | after an answer, a final failure or the end of its context a request makes no attempt ever after |
| SseCorrelation.AnswersWereRead | internal/mcp/http.go:403-465 | a response received is one the reader read, payload included, under the request's own id while a channel of one of its own attempts was waiting there |
| SseCorrelation.FailuresHaveACause | internal/mcp/http.go:394-453 | a failure received means that the stream had ended or was closed |
| SseCorrelation.NobodyWaitsOnClosedStream | internal/mcp/http.go:440-453 | closed implies nothing pending, and a request still waiting has its message or a sender holding it |
| SseCorrelation.InvAlways | internal/mcp/http.go:160-453 | the table, both senders and all requests agree after every step |
| SseCorrelation.ResponseStream.Register | internal/mcp/http.go:378-392 | registers unless closed |
| SseCorrelation.ResponseStream.Cleanup | internal/mcp/http.go:386-390 | forgets one request |
| SseCorrelation.ResponseStream.Claim | internal/mcp/http.go:426-438 | takes the entry a response belongs to |
| SseCorrelation.ResponseStream.TakeAll | internal/mcp/http.go:440-453 | closes and takes every entry; a second call takes nothing |
| SchemaHash.PreImageIdentifiesDescriptor | tool_schema.go:48-59 | two descriptors write the same bytes exactly when they are the same up to the order of Required |
| SchemaHash.PreImageReadsBack | tool_schema.go:48-59 | a decoder recovers the canonical descriptor from the bytes |
| SchemaHash.PreImageIdentifiesValues | tool_schema.go:48-152 | when every enum and default value marshals, descriptors with one pre-image are equal field by field at any depth, those values included, but for the order of Required |
| SchemaHash.ValuesReadBack | tool_schema.go:63-152 | the decoder then recovers every field as it was, enum and default values included, but for the order of Required |
| SchemaHash.SameIsEqualButRequired | tool_schema.go:63-109 | for such schemas being the same to the hash is being equal but for the order of Required |
| SchemaHash.SchemaRoundTrip | tool_schema.go:63-109 | decoding an encoded schema followed by anything gives the canonical schema and that rest, at any depth |
| SchemaHash.PropertiesRoundTrip | tool_schema.go:96-106 | the same for a list of named properties |
| SchemaHash.RulesRoundTrip | tool_schema.go:86-94 | the same for the pattern, the additional-properties flag and the sorted required names |
| SchemaHash.TextsRoundTrip | tool_schema.go:72-94 | the same for a list of length-prefixed strings |
| SchemaHash.BigEndianRoundTrip | tool_schema.go:154-158 | fixed-width big-endian words read back |
| SchemaHash.CanonicalIsSame | tool_schema.go:89-106 | schemas have equal canonical forms exactly when they are the same up to the order of Required |
| SchemaHash.SameEncodesAlike | tool_schema.go:63-109 | schemas that are the same encode alike |
| SchemaHash.Hasher.WriteSchema | tool_schema.go:63-109 | appends exactly the schema's encoding, whatever order the map is visited in |
| SchemaHash.Hasher.WriteProperties | tool_schema.go:96-106 | appends the properties in the order of their names |
| SchemaHash.Hasher.WriteText | tool_schema.go:111-114 | appends a length-prefixed string |
| SchemaHash.Hasher.WriteOptionalWord | tool_schema.go:131-143 | appends presence and value |
| SchemaHash.Hasher.WriteAny | tool_schema.go:145-152 | appends the JSON text of a value, or a fixed text when it has none |
| SchemaHash.Hasher.WriteUint64 | tool_schema.go:154-158 | appends eight bytes |
| SchemaHash.HashPreImage | tool_schema.go:48-59 | the bytes that are hashed for a descriptor |
| ToolSchema.SortIsUnique | tool_schema.go:89-100 | the ascending arrangement of a bag of names is unique, so sorting gives the same list from any order |
| ToolSchema.SortStrings | tool_schema.go:89-100 | sorts in place into that arrangement |
| ToolSchema.ArrangedIsAscending | tool_schema.go:89-100 | the arrangement ascends |
| SchemaValidation.Validate | internal/schema/schema.go:169-273 | accepts exactly the values that satisfy the schema, whatever order properties are visited in, and reports a problem that is real |
| SchemaValidation.ValidateToolCallArguments | internal/schema/schema.go:162-167 | the same for an argument object; no schema accepts everything |
| SchemaValidation.ExplainedIsRejected | internal/schema/schema.go:295-314 | a reported parameter leads to a rule the value there breaks, so the value does not satisfy the schema |
| SchemaMeaning.ScalarsSatisfy | internal/schema/schema.go:229-293 | strings, numbers, integers and booleans: inclusive bounds, whole integers, patterns and the list of allowed values; a type that is not supported accepts nothing |
| SchemaMeaning.ObjectsSatisfy | internal/schema/schema.go:183-209 | an object has its required entries, none null, properties that satisfy their schemas or are null or absent, and no others where ruled out |
| SchemaMeaning.ArraysSatisfy | internal/schema/schema.go:210-228 | an array has its number of items, each satisfying the items' schema |
| SchemaMeaning.UntypedSatisfy | internal/schema/schema.go:169-180 | without a type, properties or required names make an object's schema and items an array's; a schema without any accepts everything |
| SchemaMeaning.ParametersAreNamed | internal/schema/schema.go:295-314 | problems are located by dotted names and bracketed positions, the root by a dollar sign |
| SchemaValidation.ValidateObject | internal/schema/schema.go:183-209 | required entries, known properties and unexpected entries of an object |
| SchemaValidation.ValidateArray | internal/schema/schema.go:210-228 | length and items of an array |
| SchemaValidation.ValidateString | internal/schema/schema.go:229-248 | length and pattern of a string |
| SchemaValidation.ValidateNumber | internal/schema/schema.go:249-264 | kind and range of a number or an integer |
| SchemaValidation.ValidateBounds | internal/schema/schema.go:275-283 | inclusive bounds |
| SchemaValidation.ValidateEnum | internal/schema/schema.go:285-293 | a listed value, or no list |
| SchemaValidation.EnumContains | internal/schema/schema.go:403-418 | membership, numbers by value under a numeric type |
| SchemaValidation.ConvertUndoesPrint | internal/mcp/client.go:408-452 | converting a printed schema back gives the schema without its constraints and unsupported types, at any depth |
| SchemaValidation.PrintedSchemaLoosens | internal/mcp/client.go:408-452 | a value accepted under a schema is accepted under the converted schema |
| SchemaValidation.EraseLoosens | internal/mcp/client.go:408-452 | dropping constraints and unsupported types accepts no less, at any depth |
| SchemaValidation.EraseIsStable | internal/mcp/client.go:408-452 | a second journey changes nothing more |
| SchemaValidation.StringsReadBack | internal/mcp/client.go:459-472 | required names read back in order |
| SchemaValidation.JSONSchema | internal/schema/schema.go:49-101 | the printed schema, whatever order properties are visited in |
| SchemaValidation.PrintedKeys | internal/schema/schema.go:49-101 | which keys a printed schema has and what they hold |
| SchemaMeaning.PrintedConstraints | internal/schema/schema.go:57-86 | every constraint of a schema is printed under its own key with its own value, and one it does not have is not printed |
| SchemaMeaning.ConvertedKeeps | internal/mcp/client.go:408-452 | of any schema a server sends, texts and lists are taken where they are of the right kind, properties and items where they are objects, and nothing else |
| SchemaMeaning.ErasedKeeps | internal/mcp/client.go:408-452 | erasing keeps the description, the required names, a supported type and the nested schemas, and no constraint |
| SchemaMeaning.FirstSupportedType | internal/mcp/client.go:432-447 | of a list of types the first supported one is taken |
| SchemaMeaning.StringsAreFiltered | internal/mcp/client.go:459-472 | entries of a list that are no strings are passed over |
| SessionStore.RunsAreSound | session_persistence.go:177-315 | in every run logs are numbered 1..n without a gap under unique ids and every stored record is one a load accepts |
| SessionStore.PollerSeesEachEventOnce | session_persistence.go:268-337 | while the session is not deleted, a poller that lists after its last sequence has seen a prefix of the log, and all of it right after polling |
| SessionStore.PollTakesTheRest | session_persistence.go:318-337 | for every sound store, deletion or not, a poll takes exactly the log beyond the last sequence seen |
| SessionStore.PollDeliversWholeLog | session_persistence.go:243-337 | a poll delivers the whole log exactly when the log is empty or the poller has seen nothing |
| SessionStore.DeletionHidesAnEvent | session_persistence.go:243-337 | the input: poll one event, delete, append another, poll; the second event is in the log and never seen |
| SessionStore.PollerAheadSeesNothing | session_persistence.go:243-337 | a poller whose last sequence is ahead of a restarted log sees nothing until the log catches up |
| SessionStore.OneWriterWins | session_persistence.go:190-203 | two updates that present the same non-zero version cannot both succeed unless 2^64 operations lie between them |
| SessionStore.VersionsCount | session_persistence.go:191-206 | between two moments without deletion the version rises by exactly one per update, modulo 2^64 |
| SessionStore.VersionStep | session_persistence.go:191-206 | an update makes the version its uint64 successor, no other operation changes it, and it presented no version or the current one |
| SessionStore.LoadReturnsWhatWasSaved | session_persistence.go:177-241 | what a save reports is what a load returns; a failed save changes nothing |
| SessionContents.SavedAsPresented | session_persistence.go:177-214 | a save is refused exactly for a malformed record or a stale version, the first reason counting, and then changes nothing; otherwise the record is stored with the messages, metadata and hint presented, its trimmed id, the next version, its first creation time and the present time, and nothing else is touched |
| SessionContents.LoadedIsStored | session_persistence.go:217-241 | a sound store loads exactly what it holds under the trimmed id |
| SessionContents.DeletedIsGone | session_persistence.go:244-265 | a deleted session and its log are gone and no other is touched |
| SessionContents.AppendedAsPresented | session_persistence.go:268-315 | an append is refused exactly for a malformed event, a sequence that is not the next or an id in use, and then changes nothing; otherwise the event stands last in its log with the kind, run id and metadata presented |
| SessionContents.TrimSpaceTakesSpace | session_persistence.go:359-363 | trimming takes white space from both ends and nothing else |
| SessionStore.AfterIsSuffix | session_persistence.go:318-337 | the events after a sequence number are the rest of the log |
| SessionStore.TrimSpaceTrims | session_persistence.go:359-363 | trimmed ids have no space at either end and trim to themselves |
| SessionStore.MemorySessionStore.SaveSession | session_persistence.go:177-214 | an ended context changes nothing; otherwise a new record starts at its own version or 1, an update needs no version or the current one and gets its successor, and keeps its creation time |
| SessionStore.MemorySessionStore.LoadSession | session_persistence.go:217-241 | returns the stored record under the trimmed id, or tells an ended context, a missing id and an unknown session apart |
| SessionStore.MemorySessionStore.DeleteSession | session_persistence.go:244-265 | removes the record and its log, or changes nothing and says why |
| SessionStore.MemorySessionStore.AppendSessionEvent | session_persistence.go:268-315 | appends at the next sequence under a fresh id, or changes nothing |
| SessionStore.MemorySessionStore.ListSessionEvents | session_persistence.go:318-337 | exactly the events of the trimmed session whose sequence is greater |

## Left out

- AgentLoop.RunStreamAgreesWithRun: does not model the end of a context during a run, a caller that stops draining, or hooks that look at request ids, durations, token counts and telemetry; a hook sees the kind of event, the round, the message or call, the decision, the result and the error. Error text is the cause alone, so the wrapping by operation name is left out.
- AgentLoop.Agent.Execute: the concurrency slot, panics and timeouts of a tool are part of the outcome that the environment gives a call; the slots themselves are in `ToolSlots`. Tool risk, schema hash and safety metadata, which are functions of the tool, are not shown to hooks.
- AgentLoop.Agent.Run: skills, capability checks, run slots and the building of the system prompt are not modelled; compaction, its hooks included, is any function of the world, the round and the history.
- AgentLoop.Agent.RunStream: the same parts are left out, and so is a model that cannot stream.
- BudgetLedger.ReconcileIsExact: a stream that sends more than one done event would be reconciled more than once; the model reconciles a reservation once.
- RetryLoop.CallIsCharged: a stream's usage is reconciled when its done event passes, which is a step of `BudgetLedger`, not of the call that started the stream.
- RetryLoop.OpenCircuitIsQuiet: holds for one caller; with several, a call that began before the opening may still be running.
- ReliableModel.Model.Call: `Generate` and `Stream` share one loop with an operation parameter; the total deadline of a stream is a context that has ended before the attempt. Backoff lengths are arbitrary. Costs are reals, not float64.
- EventStream.Read: the line limit of the scanner is one of the ways a body breaks off; context checks between lines are left to the handler.
- ChatStream.StreamEndsOnce: the context error that ends reading may also come wrapped in a read error while the caller's own context is alive; either way nothing final is sent. A context that ends while an event is being sent cuts what the caller sees to a prefix; token usage and finish reasons are not carried in the model's events.
- ResponsesStream.OneCallEachUnlessSplit: assumes that ids grow by extension only, that an item's own id agrees and that outputs use different keys; the rest of the Responses decoder (text, completion, provider errors) is not modelled.
- AnthropicStream.StreamingEqualsWhole: blocks are sent one after the other in index order and tool inputs are non-empty objects; an empty input is nil on one side and an empty object on the other.
- AnthropicStream.ModelResponse: a block that is JSON null is kept as one without any key, where the source keeps a nil map; keys are matched exactly, where Go's decoder also matches other capitalisations; usage and stop reasons are left out.
- StdioProtocol.Client.NextId: ids are unbounded counters; writing to the process and JSON-RPC notifications are left out, a failed write being one of the ways a request leaves.
- SseCorrelation.AttemptsAreBounded: the HTTP exchange is a choice among accepted, transient and final; backoff and endpoint discovery are left out.
- SchemaHash.PreImageIdentifiesDescriptor: holds for schemas that fit in memory, whose lengths are below 2^63; the SHA-256 of the bytes is not modelled, and an `any` value is its JSON text.
- SchemaValidation.Validate: values are decoded JSON, with numbers as reals; Go integers, typed maps and slices reached by reflection, and json.Number are left out. Patterns are an arbitrary matcher.
- SchemaValidation.JSONSchema: descriptions and defaults are carried but never interpreted; cloning is the identity on values.
- SessionStore.MemorySessionStore.AppendSessionEvent: sequence numbers are natural numbers, since the length of a slice fits a uint64; snapshots carry their messages and schema version only.
- Subagents, skills loading, model factory, approval helpers, evaluation assertions, observers, metrics, logging and redaction: short branches without a property that spans steps.
- OpenAI request building and the rest of Anthropic request building: straightforward mappings.
