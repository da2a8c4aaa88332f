# OCS testbench: a verified model

This project models the Diameter Gy credit-control runtime of the OCS testbench and the two message
pipelines beside it, and proves properties of whole runs, of every interleaving, and of every input.
`dafny verify dfyconfig.toml` checks all of it.

The model takes the form of the code it follows. Objects whose methods update fields are classes;
loops are loops; pure helpers are functions. What the code does not decide itself (answers of the
online charging system, signals, clocks, random draws, dial results, rule evaluation, the language
model, tools) is an arbitrary value, chosen anew at each use; what the operator of a chat decides is an
arbitrary input of the turn. Concurrent components are
classes whose methods are the critical sections; each method is proved equal to a step function, and
the theorems are about every sequence of such steps.

| module | about |
|---|---|
| `Text`, `Values` | options, machine words, decimal text; session variables and numeric coercions |
| `Template`, `TemplateProperties` | rendering of AVP trees and service units; what a rendered CCR reports |
| `Session`, `Executor` | the session of a run with its log; one execution of a step |
| `Pacing`, `EngineMoves`, `RunLog` | repeats and waits; what a run may do to its session; the shape of a run's log |
| `Visits`, `Orchestrator`, `ScenarioRun` | one visit to a step, a pass, a whole continuous run |
| `Interactive` | the step-by-step session machine |
| `CCRBuilder`, `Decoder` | encoding of requests, decoding of grants from answers |
| `Behaviour` | the termination guard, re-authorisation timers and out-of-band numbering |
| `Correlator` | matching answers to waiting sends by end-to-end id |
| `Subscribers`, `Connection` | event fan-out with oldest-drop buffers; the reconnecting peer connection |
| `Chat`, `Agent`, `Anthropic`, `Sniffer`, `ToolAssembly` | the agentic loop, message translation, streaming |
| `Durations`, `TimeSeries`, `Luhn` | ISO 8601 windows, latency buckets and percentiles, check digits |

## How the run properties are stated

`SessionContext` carries a ghost log of everything a run does: executions, the CCRs they send, what they
conclude, waits, signals, passes. `StepExecutor.Execute` writes the marks of an execution itself, so the
log has one `StepExecuted` for each execution and no other. `Summarise` folds a log into the facts a
property needs (Session-Id in force, answered CCRs, last answer, the current pass, counted passes), and
the run properties are statements about all prefixes of the log: `Numbered`, `Punctuated`,
`PassesNumbered`, `CreditSafe`, `RunShape`, `HostKept`.

`Reached` says that one state of a session leads to another by moves of the engine alone: executions of
the listed steps, each when it is due, resets, and marks in the log. From it follows `Orderly`: each CCR
directly follows the mark of its own execution and has the request type of its step, each execution
sends one or is skipped or fails (`Tied`), and each is of the step visited and comes after the wait its
step asks for (`Paced`). `RunScenario` is the end result: it starts from a fresh session and has no
precondition.

`Behaviour` and `Correlator` each have a system state (the shared fields plus the goroutines in progress),
an `Action` type with one constructor per atomic step, and a `Run` over any enabled action sequence.
In `Connection` and `Subscribers` the goroutines around the modelled one appear as methods called between
any two of its steps (`Others`, `Readers`).

## What the code does where its comments or expectations differ

The model follows the code.

- Octet grants of 2^63 and more are stored as negative numbers and then do not cap anything. Usage
  reports equal the allowed amount if and only if the grant is below 2^63 or the usage does not exceed
  it anyway (`RenderedReport`, with an input in `LargeGrantUncapped`).
- An EVENT's usage is not capped and so can exceed 32 bits; in time units it is then truncated
  (`EventReport`, `EventTruncated`). Requested units are truncated in the
  same way (`ServiceUnitRules`, `RequestTruncated`).
- A wait whose nanoseconds do not fit in 64 bits comes out wrong, and can be skipped altogether
  (`StepDelayExact`, `LongWaitSkipped`).
- A CCR-U carries a usage report only when usage and grant are positive (a comment in the template
  engine says usage is always reported).
- A session's origin host survives resets if and only if the peer name is not empty and the host has no
  semicolon (`ResetKeepsHost`).
- A session marked terminated can still get a re-authorisation timer; exactly when is `TimerOnMarked`,
  and that it has no effect is `MarkedFiresNothing`.
- Stopping the behaviour keeps the session map, marked, although its comment says the map is cleared.
- The streaming reader can relay tool markup when 60 or more bytes of white space come first
  (`StreamingExact`, `SplitThatLeaks`).
- A waiting send is forgotten when another registers its end-to-end id, or when a send that gives up
  removes an entry that is no longer its own; both exact conditions are `RegisterForgets` and
  `GiveUpForgets`.
- A chat input with role "tool" breaks the pairing of the stored history for good (`InputsKeepPairing`,
  `ChatSession.Handle`).
- An initial backoff above the cap is waited once, unreduced (`BackoffClosedForm`).
- A window of 2^63 nanoseconds or more can wrap to a negative one, and making the buckets panics if that
  is minus a minute or less (`NegativeDuration`, `ResponseTimeSeries`). A window has up to 90 buckets, not about 12 as its comment says.
- Values passed to one interactive step as overrides do not reach the CCR, because the step is read
  again from the session's step list.

## Model

| member | source | states |
|---|---|---|
| Values.NarrowingKeeps | internal/template/engine.go:720-800 | Reading a quantity as 32 bits agrees with its 64-bit reading whenever that is below 2^32, whatever type holds it. |
| TemplateProperties.RenderedTree | internal/template/engine.go:83-167 | The rendered AVP tree has the paths of the template tree in the same order, and each AVP carries the vendor id of its nearest self-or-ancestor that has a non-zero one. |
| TemplateProperties.TokenKeepsType | internal/template/engine.go:548-580 | A value that is a single {{NAME}} token resolves to the typed value of that name, or fails naming it. |
| TemplateProperties.TokenSubstituted | internal/template/engine.go:548-580 | A token in front of more text is replaced by the text of its value and the rest is resolved on its own. |
| TemplateProperties.TextSubstituted | internal/template/engine.go:548-580 | Text without braces is kept as it is. |
| TemplateProperties.ServiceUnitRules | internal/template/engine.go:310-490 | Units are requested exactly when the requested quantity is positive and the request is no TERMINATE, and carry that quantity if and only if it fits the unit type; they come before the used units, an INITIAL carries no used units, and neither occurs twice. |
| TemplateProperties.UnitQuantity | internal/template/engine.go:492-534 | A service unit carries the quantity it was given if and only if that fits the unit type. |
| TemplateProperties.EventReport | internal/template/engine.go:356-407 | An EVENT reports its usage in full, whatever was granted, if and only if the unit type has 64 bits or the usage is below 2^32. |
| TemplateProperties.EventTruncated | internal/template/engine.go:503-534 | The input: an EVENT with 4294967301 time units used reports 5. |
| TemplateProperties.RequestTruncated | internal/template/engine.go:320-332 | The input: an INITIAL that asks for 4294967301 time units asks for 5. |
| TemplateProperties.CapReport | internal/template/engine.go:355-407 | A cap against a stored grant leaves exactly the allowed amount below 2^63 and does nothing from 2^63 on. |
| TemplateProperties.UnitPairReport | internal/template/engine.go:310-417 | For an UPDATE or TERMINATE the usage reported for a service is min(usage, grant) when both are positive and nothing otherwise, if and only if the grant is below 2^63 or not exceeded; CC-Time is never truncated. |
| TemplateProperties.LargeGrantUncapped | internal/template/engine.go:368-380 | The input: against a grant of 2^63 octets an UPDATE reports one octet more than was granted. |
| TemplateProperties.ServicePartReport | internal/template/engine.go:170-305 | In every service model, the n-th service of a rendered CCR reports what its own unit pair reports, wherever the model places it. |
| TemplateProperties.RenderedReport | internal/template/engine.go:65-80 | The same condition and amount for every charged position of a whole rendered CCR. |
| Session.SessionContext.constructor | internal/engine/context.go:79-97 | A fresh context has a new Session-Id on the origin host, number 0, and an empty record. |
| Session.SessionContext.ResetForNewIteration | internal/engine/context.go:101-117 | A reset takes a new Session-Id on the carried-over host and number 0, and keeps variables, metrics and state. |
| Session.SessionContext.Send | internal/engine/context.go:136-148 | Sending logs the CCR with its answer, keeps the metrics of failed exchanges too, and keeps the numbering of the log. |
| Session.SessionContext.AutoUpdateVars | internal/engine/step_executor.go:594-647 | The in-place updates of the variables amount to the absorption of the answer: root values, zeroed rating-group values, then grants. |
| Session.AbsorbedGrants | internal/engine/step_executor.go:603-646 | After an answer every seeded grant variable holds what that answer grants at its position, zero included. |
| Session.GroupVarsDistinct | internal/engine/step_executor.go:614-646 | Grant, validity, result and action variables of different positions or kinds never share a name. |
| Session.ResetKeepsHost | internal/engine/context.go:101-117 | A reset keeps the origin host if and only if the peer name is non-empty and the host has no semicolon. |
| Session.NumbersConsecutive | internal/engine/step_executor.go:213-301 | While no send has failed, each CCR carries the count of CCRs already sent under its Session-Id: numbers have no gap and no repeat. |
| Executor.BuiltInActionMeaning | internal/engine/step_executor.go:263-297 | When the built-in checks terminate at once, go to the CCR-T, or continue, as conditions on the answer alone. |
| Executor.StepExecutor.ApplyExtractions | internal/engine/step_executor.go:331-348 | Extraction in place equals folding the extractions in order, skipping missing and nil values. |
| Executor.StepExecutor.Refresh | internal/engine/step_executor.go:187-195 | Only the declared per-send variables may change, and all of them are then present. |
| Executor.StepExecutor.ApplyDerivedValues | internal/engine/step_executor.go:352-362 | Each derived value sees those before it; the first failure stops the rest. |
| Executor.StepExecutor.Settle | internal/engine/step_executor.go:240-310 | A successful exchange is absorbed, totals the usage, decides from the updated variables, and moves the number on by one modulo 2^32. |
| Executor.StepExecutor.Exchange | internal/engine/step_executor.go:198-310 | The CCR carries the session's id and number and the AVPs rendered from the merged variables; the number moves only when the send succeeds, and a failed render sends nothing. |
| Executor.StepExecutor.Execute | internal/engine/step_executor.go:165-310 | Everything one execution does, between its two marks in the log: guard error and skip change nothing, a failed derivation changes variables only, an exchange settles or fails. |
| Executor.ExecutionSends | internal/engine/step_executor.go:165-310 | An execution logs one StepExecuted, directly after it at most one CCR, of the step's request type, and its conclusion: the CCR is answered when the execution succeeds, none is sent when it skips, and none or a failed one on an error. |
| Executor.RenderedWithinGrants | internal/template/engine.go:310-417 | A CCR rendered from variables that track the last answer reports within its grants at every position. |
| Executor.ExecutionKeepsCredit | internal/engine/step_executor.go:165-310 | One execution, whatever its outcome, keeps all reports so far within their grants and the grant variables equal to the last answer's grants. |
| Executor.PreparedKeepsGrants | internal/engine/step_executor.go:171-200 | Preparing a step that writes no grant variable leaves all of them alone, through extraction, refresh and derivation. |
| Orchestrator.Orchestrator.RunStepWithRetry | internal/engine/orchestrator.go:395-433 | The executor executes the step once per attempt and at most retries + 1 times, each CCR with its execution, each retry after the retry delay; a retry request that survives becomes a termination, exactly after the last attempt; what it returns is what its last logged event concludes. |
| Orchestrator.Orchestrator.Repeat | internal/engine/orchestrator.go:348-388 | One repeat is the last exactly on an error, an action, a holding exit condition or an interrupt, and its last logged event gives that reason. |
| Orchestrator.Orchestrator.RunStepLoop | internal/engine/orchestrator.go:305-392 | A visit executes only its step and no more than its budget, at once unless its first wait is cut, before each repeat waits as the step asks, and unless told otherwise makes exactly its number of repeats or ends with the exit condition; what it tells the run is what its last logged event says, and nothing before that asked for anything. |
| Orchestrator.Orchestrator.RunPass | internal/engine/orchestrator.go:126-192 | A pass that does not end the run visits all steps, or after a jump the steps up to it and then the last one, and nothing that ends a run happened in it before the jump arrived; a run that ends in a pass has the state and error its last event calls for; no session is opened inside a pass. |
| Orchestrator.Orchestrator.JumpToLast | internal/engine/orchestrator.go:153-192 | A jump first waits as the step that jumps asks, then visits the last step once within the pass's budget; what that step or a stop or interrupt in it asks for is ignored, only an error or cancellation ends the run there. |
| Orchestrator.Orchestrator.RunContinuous | internal/engine/orchestrator.go:99-219 | The run makes only moves of the engine. Passes are reported 1, 2, 3, ... up to a positive limit; CCRs sent ≤ executions ≤ limit × the sum of step budgets; a new session is opened directly after each pass that another follows and nowhere else. The last event says why the run ended: terminated means an execution said so, completed means a stop or the limit reached, paused an interrupt or pause, error a failed execution or cancellation. Credit and host properties hold throughout. |
| Pacing.WaitRange | internal/engine/orchestrator.go:451-476 | The wait a step asks for is at least its base in whole milliseconds and at most the base plus the whole jitter. |
| Pacing.StepDelayExact | internal/engine/orchestrator.go:473-478 | The 64-bit wait is the one asked for if and only if its nanoseconds are below 2^63. |
| Pacing.LongWaitSkipped | internal/engine/orchestrator.go:473-478 | The input: three times a Validity-Time of 4294967295 s comes out negative, so the wait is skipped. |
| RunLog.PassNumbering | internal/engine/orchestrator.go:126-218 | The CCRs after the reset that opens a pass carry its Session-Id and are numbered by their place in the pass while no send has failed. |
| RunLog.SendsHavePass | internal/engine/orchestrator.go:126-218 | In a log where resets and ends of passes go together, every send belongs to the pass of some reset. |
| RunLog.OnePassOneSession | internal/engine/orchestrator.go:126-218 | Two sends with no end of a pass between them carry the same Session-Id. |
| RunLog.FullPassEndsLast | internal/engine/orchestrator.go:126-192 | A counted pass starts at step 0, ends on the last step, and visits steps in strictly ascending order. |
| Pacing.JumpWithinBudget | internal/engine/orchestrator.go:153-192 | A prefix of the steps plus the last never needs more than one budget of the whole list. |
| EngineMoves.ReachedOrderly | internal/engine/orchestrator.go:305-433 | Whatever moves a run makes, each CCR directly follows the mark of its own execution and has its step's request type, each execution sends one or is skipped or fails, each is of the step visited, and each comes after the step's own wait, after the retry delay, or first in its pass. |
| Visits.VisitExecute | internal/engine/orchestrator.go:408-430 | One execution as part of a visit: one more execution and at most one more CCR, a failed send only with an error, the credit kept, and the variables extracted from the last answer of the pass not counting retried ones. |
| Visits.SaysPass | internal/engine/orchestrator.go:147-204 | A visit that tells the run to go on leaves the pass unbroken; once a jump has arrived at the last step, only an error breaks the pass. |
| ScenarioRun.SeedGrants | internal/api/session_manager.go:312-316 | All grant variables of every service start at zero. |
| ScenarioRun.RunScenario | internal/api/session_manager.go:280-316 | From any start, for all answers and signals: the run is a sequence of engine moves whose CCRs, executions and waits are tied as in `Orderly`; CCRs sent ≤ executions, and ≤ limit × the sum of step budgets under a positive limit; each pass has one Session-Id, made by the reset that opens it, and its CCRs are numbered 0, 1, 2, ... while no send has failed; one origin host, reports within grants, only a final send fails, pass shapes, and an end explained by the last event. |
| Interactive.SessionRecord.constructor | internal/api/session_manager.go:326-350 | A new interactive session is paused before its first step. |
| Interactive.SessionRecord.Step | internal/api/session_manager.go:635-703 | A step either is refused, changing nothing but completing a session at its end, or appends exactly one row and moves the cursor by one; the next CCR number stays the number of answered rows; credit safety is kept. |
| Interactive.SessionRecord.Record | internal/api/session_manager.go:1386-1448 | The row of an outcome is numbered one past the history and counts as answered exactly when the step neither failed nor was skipped. |
| Interactive.SessionRecord.Skip | internal/api/session_manager.go:593-629 | A skip needs a paused session with a step left, appends a skipped row, sends nothing, and completes the session at its end. |
| Interactive.SessionRecord.Stop | internal/api/session_manager.go:475-495 | Stop terminates active and paused sessions and leaves ended ones as they are. |
| Interactive.SessionRecord.Drive | internal/api/session_manager.go:475-703 | Over any sequence of steps, skips and stops the cursor equals the number of rows, numbered from 1, and completed, terminated and error are absorbing. |
| Interactive.ExecutionAnswers | internal/engine/step_executor.go:165-310 | An execution answers one CCR exactly when it neither fails nor skips. |
| CCRBuilder.BuildCCRMessage | internal/diameter/messaging/ccr_builder.go:56-122 | Every builder-owned code appears exactly once with the request's own value (Destination-Host only if not blank), and the other extras follow complete and in their original order; invalid requests are refused with the first reason. |
| CCRBuilder.CanonicalBlock | internal/diameter/messaging/ccr_builder.go:84-101 | The canonical part holds each owned AVP once, Session-Id first, and nothing else. |
| Decoder.ReadGrantedUnits | internal/diameter/messaging/cca_decoder.go:160-174 | The last well-typed CC-Time and CC-Total-Octets count, absent ones being zero. |
| Decoder.ReadFUIAction | internal/diameter/messaging/cca_decoder.go:93-102 | The first well-typed action counts, absent being -1. |
| Decoder.DecodeBlock | internal/diameter/messaging/cca_decoder.go:122-152 | A group's fields are its last well-typed occurrences, in whatever order they come. |
| Decoder.DecodeMSCCs | internal/diameter/messaging/cca_decoder.go:109-155 | One block per group found, in message order. |
| Decoder.DecodeTopLevel | internal/diameter/messaging/cca_decoder.go:69-87 | Grant, validity and final-unit action of the message come from its own unvendored AVPs only. |
| Decoder.DecodesEncoded | internal/diameter/messaging/cca_decoder.go:109-174 | Blocks written as MSCC groups decode to themselves, one by one and in order. |
| Decoder.OtherUnitsUnread | internal/diameter/messaging/cca_decoder.go:160-174 | A grant in any unit other than CC-Time and CC-Total-Octets changes nothing, wherever it stands. |
| Decoder.BlocksNotPromoted | internal/diameter/messaging/cca_decoder.go:65-87 | An MSCC group never changes the message-level grant, validity or final-unit action. |
| Behaviour.Behaviour.constructor | internal/diameter/protocol/behaviour.go:159-177 | No session is known at first, and the margin is positive, the default replacing a non-positive one. |
| Behaviour.Behaviour.Guard | internal/diameter/protocol/behaviour.go:182-196 | A request passes unless its session is marked and it is not a TERMINATE. |
| Behaviour.Behaviour.ObserveCCA | internal/diameter/protocol/behaviour.go:212-289 | The critical section after an answer: which session it concerns, and the mark, timer and number that follow from a permanent failure, a final unit, a validity time or none. |
| Behaviour.Behaviour.FireReAuth | internal/diameter/protocol/behaviour.go:293-304 | A timer allots the next number exactly when the session is known, unmarked and the behaviour not stopped. |
| Behaviour.Behaviour.Stop | internal/diameter/protocol/behaviour.go:393-405 | Every tracked session ends up marked and without timer, in whatever order the map is walked. |
| Behaviour.TerminationSafety | internal/diameter/protocol/behaviour.go:182-204 | Under every interleaving a mark is never cleared, and the non-TERMINATE requests reaching the inner sender after it are exactly those past the guard at that moment less those still on their way. |
| Behaviour.StopMarks | internal/diameter/protocol/behaviour.go:393-405 | A stop marks each tracked session, so the safety result applies to all of them. |
| Behaviour.ReAuthInTime | internal/diameter/protocol/behaviour.go:268-277 | Re-authorisation is at least 100 ms ahead and strictly before the Validity-Time elapses, exactly the margin before it when there is room, without 64-bit overflow. |
| Behaviour.TimerOnMarked | internal/diameter/protocol/behaviour.go:235-289 | When an answer leaves a timer on a marked session, as a condition on the answer and the state before it. |
| Behaviour.MarkedFiresNothing | internal/diameter/protocol/behaviour.go:293-300 | A timer of a marked session, or any timer after a stop, changes nothing. |
| Behaviour.AllottedIncrease | internal/diameter/protocol/behaviour.go:224-304 | Over any interleaving each allotted CC-Request-Number exceeds all numbers seen or allotted in its session before, if and only if no session allots a number after using the last 32-bit one. |
| Behaviour.OutOfBandProper | internal/diameter/protocol/behaviour.go:316-368 | Every request the behaviour sends itself is an UPDATE or TERMINATE with a number allotted in its session. |
| Correlator.PeerCorrelator.Register | internal/diameter/messaging/sender.go:62-68 | A fresh channel becomes the entry of the id, replacing any other. |
| Correlator.PeerCorrelator.Lookup | internal/diameter/messaging/sender.go:84-104 | The locked half of a dispatch moves the entry, if any, out of the map; an unknown id changes nothing. |
| Correlator.PeerCorrelator.Put | internal/diameter/messaging/sender.go:105-111 | The non-blocking send, with the panic of a closed channel and the default branch of a full one made visible. |
| Correlator.PeerCorrelator.CloseAll | internal/diameter/messaging/sender.go:114-121 | All pending channels are closed and removed, in whatever order the map is walked. |
| Correlator.PeerCorrelator.Receive | internal/diameter/messaging/sender.go:209-219 | A buffered answer is returned before a close is noticed. |
| Correlator.PeerCorrelator.GiveUp | internal/diameter/messaging/sender.go:204-223 | Giving up removes whichever entry stands under the call's id. |
| Correlator.AlwaysSafe | internal/diameter/messaging/sender.go:62-121 | Under every interleaving, with repeating ids too: no send on a closed channel, no double close, no discarded answer, at most one answer per call and only its own id's, and no entry of a returned call. |
| Correlator.RegisterForgets | internal/diameter/messaging/sender.go:62-68 | Registering forgets no call if and only if none is pending under the id. |
| Correlator.GiveUpForgets | internal/diameter/messaging/sender.go:73-77 | Giving up forgets no other call if and only if the id's entry is absent or its own. |
| Correlator.NeverForgotten | internal/diameter/messaging/sender.go:62-121 | With unique ids in flight every call stays resolvable under every interleaving. |
| Correlator.DropReleases | internal/diameter/messaging/sender.go:259-272 | After a drop every call in flight can return or has its answer on the way. |
| Correlator.EveryRun | internal/diameter/messaging/sender.go:62-121 | Safety for every run from an empty correlator, and no forgotten call when ids are unique. |
| Subscribers.SubscriberSet.Add | internal/diameter/conn/state.go:61-67 | A subscriber starts empty and up to date. |
| Subscribers.SubscriberSet.Remove | internal/diameter/conn/state.go:72-82 | Removal closes once; removing again does nothing. |
| Subscribers.SubscriberSet.CloseAll | internal/diameter/conn/state.go:86-93 | Every registered channel is closed, none twice. |
| Subscribers.SubscriberSet.Offer | internal/diameter/conn/state.go:115-134 | With readers running between the three selects the new event is always enqueued, at most one old one is dropped, and none if there was room to begin with. |
| Subscribers.SubscriberSet.Emit | internal/diameter/conn/state.go:112-136 | After an emit every live subscriber is up to date, its buffer is the newest stretch of events since it subscribed, each event was consumed, buffered or dropped, and no new event was given up. |
| Subscribers.InOrder | internal/diameter/conn/state.go:61-136 | Consumed and buffered events are an in-order selection of the events emitted since the subscription. |
| Subscribers.RisingPicksSubsequence | internal/diameter/conn/state.go:102-136 | Events at rising positions form a subsequence in the sense of leaving events out. |
| Connection.BackoffMonotone | internal/diameter/conn/connection.go:548-560 | For every factor the waits never shrink and stay between the initial wait and the cap. |
| Connection.BackoffClosedForm | internal/diameter/conn/connection.go:548-560 | The wait after the (j+1)-th failure is min(initial × 2^j, cap) for all j if and only if the initial wait is within the cap. |
| Connection.PeerConnection.Conn | internal/diameter/conn/connection.go:234-241 | A connection is handed out only while connected, and never one the run has closed. |
| Connection.PeerConnection.TransitionTo | internal/diameter/conn/connection.go:514-528 | An event is emitted exactly when the state changes, from the old to the new state. |
| Connection.PeerConnection.Connect | internal/diameter/conn/connection.go:252-271 | The first invalid field or a run in progress refuses; otherwise a run starts with a fresh history. |
| Connection.PeerConnection.Disconnect | internal/diameter/conn/connection.go:276-290 | A run is cancelled; without one the state is normalised to stopped. |
| Connection.PeerConnection.Failed | internal/diameter/conn/connection.go:352-370 | A failed dial shows in the trace only if it is the run's first, is directly followed by a wait of the backoff of its place, and then the run either retries with the next backoff or stops. |
| Connection.PeerConnection.Serve | internal/diameter/conn/connection.go:372-408 | A successful dial shows as one Connected event, resets the backoff, and its connection is withdrawn from senders before it is closed. |
| Connection.PeerConnection.Run | internal/diameter/conn/connection.go:323-409 | One run's trace is a chained path of allowed edges with at most one Connecting, one Connected per successful dial and one Disconnected per drop plus one if the first dial fails; every dial is in the history, each failed one directly followed by a wait that follows the backoff since the last success, and there are no other waits; no caller of Conn ever got a closed connection; it ends by cancellation only, stopped. |
| Chat.WellPairedAnswers | internal/ai/agent.go:305-388 | In a well-paired history a turn with n tool calls is followed by n tool results with the same ids in the same order. |
| Agent.Agent.AnswerCalls | internal/ai/agent.go:305-388 | Denied, unparsable, failing and executed calls alike get exactly one result, in order; the tools called are exactly those of the calls that may run. |
| Agent.Agent.Answer | internal/ai/agent.go:311-375 | A tool is called exactly if it is read-only or the operator allows this very call, and its arguments parse; otherwise the result says which of the two failed. |
| Agent.Agent.Run | internal/ai/agent.go:229-390 | Each request to the model is the system prompt followed by the whole history of that moment: the input first, later all answers and results so far, one request directly before each assistant turn; a well-paired history is so at every call and, unless the turn is aborted, at the end; a finished turn ends with an assistant message without calls. Over the whole turn, the tools called are exactly those the history and the operator's decisions give (`Performed`). |
| Agent.PerformedOnce | internal/ai/agent.go:305-388 | In a turn no call runs twice, none runs without permission, and each that runs has its result in the history. |
| Agent.InputsKeepPairing | internal/api/ai_chat.go:76-83 | New inputs keep a history well paired if and only if none claims the role "tool". |
| Agent.ChatSession.Handle | internal/api/ai_chat.go:72-172 | An aborted turn is rolled back; any other stored history extends the old one. A well-paired history stays so if and only if no input claims to be a tool result, and a broken one stays broken. |
| Agent.ChatSession.Drive | internal/api/ai_chat.go:56-173 | Over any number of completed, failed and aborted turns the stored history is well paired if and only if every stored turn's inputs were. |
| Anthropic.BuildAnthropicRequest | internal/ai/anthropic_client.go:164-231 | The loop with its pending results equals the translation fold, and the system prompt is the last system message. |
| Anthropic.NothingLost | internal/ai/anthropic_client.go:164-231 | Flattening the request gives the blocks of the messages in order, none dropped or duplicated. |
| Anthropic.RequestPairs | internal/ai/anthropic_client.go:164-231 | A well-paired history translates so that each tool-use turn is directly followed by one user message holding exactly its results in order. |
| Anthropic.EveryRequestPairs | internal/ai/agent.go:256-300 | Every request an agent run makes translates that way, and its blocks are those of the whole history of that call. |
| Anthropic.ResponseToCompletion | internal/ai/anthropic_client.go:238-277 | Text is concatenated, tool uses are listed in order, and the finish reason tells whether there are any. |
| Anthropic.RoundTrip | internal/ai/anthropic_client.go:196-277 | Reading back a translated assistant turn returns its content and tool calls, only invalid JSON arguments becoming {}. |
| Sniffer.ContentStream.EmitContent | internal/ai/client.go:257-275 | One delta moves the sniff machine by one step. |
| Sniffer.ContentStream.Flush | internal/ai/client.go:339-346 | Short content is decided at the end. |
| Sniffer.StreamContent | internal/ai/client.go:257-346 | The loop over deltas, which skips empty ones, equals the machine run over all of them. |
| Sniffer.StreamingRefines | internal/ai/client.go:242-346 | Every split into deltas relays the whole content, or nothing when it starts with the tag, if the tag is absent or comes after less than 60 bytes of white space. |
| Sniffer.StreamingExact | internal/ai/client.go:242-346 | That condition is exact: all splits agree with the whole content if and only if it holds. |
| Sniffer.SplitThatLeaks | internal/ai/client.go:257-268 | A concrete split that relays the markup whenever the condition fails. |
| ToolAssembly.SortIndices | internal/ai/client.go:367-373 | The exchange sort leaves the indices sorted and a permutation of what they were. |
| ToolAssembly.ListCalls | internal/ai/client.go:361-380 | The calls come in ascending index order whatever order the map yields, those without an id left out. |
| ToolAssembly.AssembleToolCalls | internal/ai/client.go:319-380 | The fragments are gathered per index and listed in index order. |
| ToolAssembly.GatheredByIndex | internal/ai/client.go:319-333 | What stands under an index is made by the fragments of that index alone, in order. |
| ToolAssembly.JoinedArguments | internal/ai/client.go:319-333 | The arguments are the in-order concatenation of the pieces. |
| ToolAssembly.InterleavingIrrelevant | internal/ai/client.go:319-380 | The assembled calls do not depend on how fragments of different indices interleave. |
| ToolAssembly.AssembleToolBlocks | internal/ai/anthropic_client.go:391-473 | The block format assembles the same way, a later announcement replacing and unannounced pieces ignored, empty arguments becoming {}. |
| ToolAssembly.BlockInterleavingIrrelevant | internal/ai/anthropic_client.go:391-473 | Nor does the block format depend on the interleaving. |
| Durations.ParseDuration | internal/api/session_manager.go:1586-1619 | The result of 64-bit arithmetic throughout is the exact sum of the parts wrapped once; the first malformed part decides the error, and a zero sum is refused. |
| Durations.FormatParses | internal/api/session_manager.go:1621-1639 | A printed positive duration of whole seconds parses back to itself. |
| Durations.NegativeDuration | internal/api/session_manager.go:1586-1619 | A duration that parses to a negative number. |
| TimeSeries.BucketBounds | internal/api/session_manager.go:1525-1536 | Buckets are whole minutes wide, a positive window has 1 to 90 of them, and together they just cover it. |
| TimeSeries.NegativeCount | internal/api/session_manager.go:1525-1541 | The bucket count is negative exactly for windows of minus a minute and less, and zero for other windows that are not positive. |
| TimeSeries.PlacedWhen | internal/api/session_manager.go:1547-1561 | A considered sample has a bucket if and only if it is younger than the buckets reach and less than one width in the future. |
| TimeSeries.RecentPlaced | internal/api/session_manager.go:1547-1561 | Every non-future sample younger than the window has exactly one bucket, the one covering its age. |
| TimeSeries.FillBuckets | internal/api/session_manager.go:1540-1563 | Each bucket holds the durations of the samples placed in it, in history order. |
| TimeSeries.BucketsConserve | internal/api/session_manager.go:1540-1563 | The bucket sizes add up to the number of samples that have a bucket. |
| TimeSeries.PercentileWithin | internal/api/session_manager.go:1642-1654 | Percentiles lie between the least and the greatest sample. |
| TimeSeries.PercentileMonotone | internal/api/session_manager.go:1642-1654 | Percentiles grow with p. |
| TimeSeries.PointOrdered | internal/api/session_manager.go:1565-1579 | In each bucket p50 ≤ p95 ≤ p99, all within the range of its samples. |
| TimeSeries.LabelsEvenlySpaced | internal/api/session_manager.go:1566-1568 | Neighbouring points are exactly one bucket width apart and lie on its grid. |
| TimeSeries.ResponseTimeSeries | internal/api/session_manager.go:1518-1582 | A series has one point per bucket and a bucket size that parses back to the width used; a window that does not parse is refused, and one of minus a minute or less panics. |
| Luhn.LuhnCheckDigit | web/src/api/imei.ts:23-35 | The walk from the right computes the digit that makes the number pass; anything but digits gives -1. |
| Luhn.CheckDigitPasses | web/src/api/imei.ts:23-35 | Exactly one last digit makes a number pass. |
| Luhn.SingleChangeDetected | web/src/api/imei.ts:23-35 | Every change of a single digit is detected, for numbers of any length. |
| Luhn.SwapDetected | web/src/api/imei.ts:23-35 | A swap of neighbours goes undetected if and only if it changes nothing or exchanges 0 and 9. |
| Luhn.ValidImeiPasses | web/src/api/imei.ts:38-42 | An IMEI is valid if and only if it has 15 digits and passes. |
| Luhn.BuildImei | web/src/api/imei.ts:49-55 | Composition succeeds exactly for well-formed parts and then gives a valid IMEI with those parts. |
| Luhn.ValidIccidPasses | web/src/api/iccid.ts:22-26 | An ICCID is valid if and only if it has 19 or 20 digits and passes. |
| Luhn.BuildIccid | web/src/api/iccid.ts:35-51 | Composition succeeds exactly for well-formed parts and then gives a valid 19-digit ICCID with those parts. |

## Left out

- Orchestrator.Orchestrator.RunContinuous: a run without a positive pass limit need not end, so it is observed for a given number of passes; what each check of the stop and interrupt channels finds is arbitrary, so the model does not say when a signal must be heard, only what happens when it is. Resuming from the interrupted step is not modelled, because the code starts the remaining list anew.
- ScenarioRun.RunScenario: the credit statement covers time and octet scenarios; for service-specific units no grant is decoded (`OtherUnitsUnread`). Loading the scenario, its variables and the peer from the store is left out.
- Executor.StepExecutor.Execute: the leaf encoder, the dictionary, the rule evaluator and CCA path extraction are arbitrary functions; answers are arbitrary decoded values.
- CCRBuilder.BuildCCRMessage: flags, lengths, hop-by-hop and end-to-end ids, and the generated Session-Id belong to the Diameter library or to random sources.
- Decoder.DecodeMSCCs: takes the MSCC groups the library's search finds; the other headline fields of an answer are read by that search, whose depth is not part of this model.
- Behaviour.TerminationSafety: requests with an empty Session-Id are outside the guard; timers carry no identity, and any of them may fire at any time, which allows more runs than the code has.
- Correlator.EveryRun: the per-peer lookup of correlators and the state subscription that triggers the close are left out, with them the loss of that subscription after a manual disconnect and reconnect.
- Subscribers.SubscriberSet.Emit: two managers' subscriptions to one connection (fan-out more than once) are not modelled.
- Connection.PeerConnection.Run: observed for a given number of dials; a second Disconnect, or a Connect, that overlaps a Disconnect still waiting for the run to end is left out: the cancel function is cleared before that wait, so the one moves the state and the other starts a second run while the first is still ending.
- Agent.Agent.Run: observed for a given number of model calls; the decision channel behind a permission, token usage and the events sent to the browser are left out.
- Sniffer.StreamContent: the fallback that reads tool calls out of the markup itself is left out.
- ToolAssembly.AssembleToolBlocks: splitting the byte stream into events and JSON decoding are left out.
- TimeSeries.ResponseTimeSeries: ratios and percentiles are over the reals, not floating point.
- Pacing.WaitMs, Pacing.StepDelay: the milliseconds are computed over the reals, where the code uses 64-bit floats.
- Connection.NextBackoff, Connection.BackoffClosedForm: the backoff is multiplied over the reals, where the code uses 64-bit floats.
- Text.Upper, Text.Lower: map ASCII letters only.
- Interactive.SessionRecord.Step: overlapping calls, event broadcasts and override staging are left out.
- Metrics summaries, session listing and details, in-memory name indexes and configuration would only add easy members.
- HTTP and SSE handlers, MCP registration, the desktop shell and the web pages, PostgreSQL, logging, TLS, capabilities exchange and watchdog are plumbing or library code.
