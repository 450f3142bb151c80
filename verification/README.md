# Agent platform: a verified model

The Dafny modules here model the execution engine of the agent runtime and the stateful gates of
the gateway, and prove what they promise for every input, every run and every interleaving. Each
module follows one component:

- `ActionGateway` is the journal behind external actions: handlers for execute, compensate and
  credential lease that run concurrently over two locked maps and an append-only log, and a startup
  that replays the log. It is a state machine whose steps are the points between two awaits.
  `ActionGatewaySafety` has the invariant, `ActionGatewayTheorems` what follows for whole runs
  (recovery, idempotency, no deadlock), `ActionGatewayAdmission` which requests reach the log, and
  `ActionGatewayAnswers` which reply each request gets, told by the lines of the log.
- `Schema` is the runtime's JSON-schema subset, `SchemaTheorems` its order-free reading.
- `ToolPolicy`, `StepPlan` and `StepPlanTheorems` are tool scoping and the step-plan executor,
  `StepPlanOutcomes` what becomes of each step, case by case.
- `SseStream`, `SseTheorems` and `SseWitness` are the incremental parser of a provider's event stream,
  `SseMeaning` what an event's members add to it and `SseStreamMeaning` what a whole stream delivers;
  `JsonText`, `JsonExtract`, `JsonExtractTheorems` and `JsonExtractLeftmost` are the search for a JSON
  object in an answer, against the concrete syntax of RFC 8259, sections 2 to 7.
- `ToolLoop` is the bounded tool-calling loop with its audit trail, `ToolLoopTheorems` what the places
  it can stop at mean; `RetryLoop` is the retry loop under two time budgets.
- `RateLimiter`, `RuleFileCache`, `DraftGate`, `DraftContract`, `ReviewFlow`, `ActionItems`,
  `ActionItemsTheorems` and `ActionItemsMeaning` are the gateway's limiter, rule-file cache, draft and
  review gate, and answer-quality action items.
- `RunLifecycle`, `AuthPolicy`, `ControlFields` and `ControlFieldsTheorems` are the run and request
  state machines, the authorization policy, and the filter that removes control fields in place.

`Wrappers`, `Json` and `Text` hold the shared types and the few string operations.

What cannot be predicted is a parameter: the clock, the model, tools, provider, file system, JSON
parser and record deserializer are functions the theorems quantify over. Objects the program
updates in place are classes; loops over local variables are methods. Each is proved against a
function or predicate, and the lemmas say what that means without naming it: in terms of the lines
of a log, the members of an event, the list of calls or the words of a request.

## Findings

Where the code gives less, or more, than its names and documentation suggest, the model follows the
code:

- The rate limiter lets through up to `2 * limit - 1` calls of a subject in one window length, and
  that number is reached (`RateLimiter.BoundIsAttained`).
- Chunking of a stream shows in one place only: when a tool call precedes a malformed line, the
  error depends on where the chunks end (`SseTheorems.ChunkingIsInvisibleIff`, reached in
  `SseWitness.ErrorsDiffer`).
- An action item's transition whose event id is already taken reports an error after the status has
  changed (`ActionItemsTheorems.TransitionKeepsInvIff`, reached in `RepeatedReviewIsReached`).
- A service entry allows all actions that begin with it, up to its trailing stars, whether it has a
  star or not: "admin:" allows "admin:external_action_apply", "session:create" allows
  "session:create_child", and an entry that is empty or stars only allows everything
  (`AuthPolicy.EntryIsPrefixGrant`, `GrantsEverythingIff`, `StarlessEntriesGrantMore`).
- A rule file rewritten with the same time and length goes on being answered with its old content
  (`RuleFileCache.StaleIff`, reached in `StaleIsReached`).
- The validator treats any schema that is not a non-empty object as accepting everything; `required`
  and a positive `minItems` reject values of the wrong kind; `additionalProperties` counts only next
  to `properties` (`Schema.Validate`).
- A tool call can stay without a result or error event: exactly when the budget is used up right
  after its tool finished, or the sink fails right after its call event
  (`ToolLoopTheorems.EndsOpenIff`, reached in `RunWitness`).

## Model

| member | source | states |
|---|---|---|
| ActionGateway.LoadLog | agent-platform/crates/agent-runtime/src/lib.rs:3364-3410 | startup ends with exactly the two maps that applying the lines in order gives, or with the error of the first bad line |
| ActionGateway.ReplayErrSticks | agent-platform/crates/agent-runtime/src/lib.rs:3377-3408 | once a prefix of the log fails to load, every longer log fails with the same error |
| ActionGatewaySafety.StepKeepsInv | agent-platform/crates/agent-runtime/src/lib.rs:2961-3029 | every lock, lookup, append, insert, arrival, dropped handler, crash and restart keeps the protocol invariant: lock ownership, log against maps, distinct events, answers already given |
| ActionGatewaySafety.RunKeepsInv | agent-platform/crates/agent-runtime/src/lib.rs:3196-3362 | the invariant holds after every run of every interleaving of execute, compensate and lease handlers, crashes and restarts included |
| ActionGatewaySafety.NewOutputIsPromised | agent-platform/crates/agent-runtime/src/lib.rs:3231-3250 | an execution with a fresh event id gets a compensation reference no earlier execution has |
| ActionGatewaySafety.ExecuteAppendKeepsProcess | agent-platform/crates/agent-runtime/src/lib.rs:3251-3269 | appending an execution makes exactly its own entry in flight and disturbs no other handler's claim |
| ActionGatewaySafety.CompensateAppendKeepsProcess | agent-platform/crates/agent-runtime/src/lib.rs:3345-3359 | the same for a compensation |
| ActionGatewayTheorems.LogIsMemory | agent-platform/crates/agent-runtime/src/lib.rs:3004-3028 | at every point of every run the log replays to the two maps plus at most one entry per map, which its lock owner has appended and not yet inserted and which is not in the map |
| ActionGatewayTheorems.RestartRecovers | agent-platform/crates/agent-runtime/src/lib.rs:2970-2978 | after a crash at any point startup succeeds and has every entry of the lost process, the appended but not inserted ones included |
| ActionGatewayTheorems.EventsAreUnique | agent-platform/crates/agent-runtime/src/lib.rs:3208-3271 | at most one executed event per key and per reference, at most one compensated event per reference, each after an executed event with that reference |
| ActionGatewayTheorems.CompensationsNeverOutnumberExecutions | agent-platform/crates/agent-runtime/src/lib.rs:3318-3361 | in every log of every run there are at most as many compensations as executions |
| ActionGatewayTheorems.LoggedKeyIsAnsweredFromLog | agent-platform/crates/agent-runtime/src/lib.rs:3208-3211 | whatever a run logged, every later answer for that key or reference is the logged output, across crashes |
| ActionGatewayTheorems.AnswersNeverChange | agent-platform/crates/agent-runtime/src/lib.rs:3318-3321 | a key once answered as applied, or a reference once answered, is always answered the same |
| ActionGatewayTheorems.SomeHandlerCanStep | agent-platform/crates/agent-runtime/src/lib.rs:3318-3325 | the lock order compensations, executions, file never deadlocks: while handlers run one of them can step, whether or not its write succeeds |
| ActionGatewayTheorems.StepsAreBounded | agent-platform/crates/agent-runtime/src/lib.rs:3303-3362 | each step ends its handler or brings it closer to its end and moves no other; no handler takes more than seven |
| ActionGatewayAdmission.OnlyVettedRequestsAreLogged | agent-platform/crates/agent-runtime/src/lib.rs:3201-3229 | at every point of every run a step appends nothing or one line of its own request, which was authorized, well-formed, for this connector and with a credential of its own plan |
| ActionGatewayAdmission.LeaseIsVetted | agent-platform/crates/agent-runtime/src/lib.rs:3108-3149 | a lease line is only appended for a request with plan, scope and an allowed scope |
| ActionGatewayAnswers.ReplayMeans | agent-platform/crates/agent-runtime/src/lib.rs:3377-3408 | a log loads iff no line is faulty; the maps then have exactly the keys and references that have a line, each with the output of its last line, and otherwise the first fault is reported |
| ActionGatewayAnswers.EveryReplyIsDue | agent-platform/crates/agent-runtime/src/lib.rs:3196-3362 | in every run, at every step: a request is turned away on arrival iff it fails a check there, for that check; a later answer is the logged one or a rejection with its reason; a reference is not found only if no execution line gave it out; only a failed write is an internal error |
| ActionGatewayAnswers.RepeatedExecuteAlone | agent-platform/crates/agent-runtime/src/lib.rs:3208-3211 | after any run, a request for a logged key that nothing hinders is given the logged output and nothing is written |
| ActionGatewayAnswers.RejectedExecuteAlone | agent-platform/crates/agent-runtime/src/lib.rs:3213-3229 | one for a new key but another connector, or without a credential of its plan, is rejected for that reason and nothing is written |
| ActionGatewayAnswers.ExecuteAlone | agent-platform/crates/agent-runtime/src/lib.rs:3231-3271 | one for a new key that may be executed is given an accepted output whose reference ends in the new event id, and its line is written |
| ActionGatewayAnswers.RepeatedCompensateAlone | agent-platform/crates/agent-runtime/src/lib.rs:3318-3321 | a compensated reference is given the logged output and nothing is written |
| ActionGatewayAnswers.UnknownCompensateAlone | agent-platform/crates/agent-runtime/src/lib.rs:3322-3331 | a reference that no execution line gave out is not found and nothing is written |
| ActionGatewayAnswers.CompensateAlone | agent-platform/crates/agent-runtime/src/lib.rs:3322-3361 | a reference that an execution line gave out and that is not compensated is compensated under a new id, and its line is written |
| ActionGatewayAnswers.ExecuteThenCompensate | agent-platform/crates/agent-runtime/src/lib.rs:3196-3362 | after any run, an executable request with a new key is executed, and compensating the reference it was given succeeds |
| ActionGatewayAnswers.LeaseAlone | agent-platform/crates/agent-runtime/src/lib.rs:3108-3149 | a lease that passes its checks is issued and its line is written |
| SchemaTheorems.AcceptsIffNoViolation | agent-platform/crates/agent-core/src/traits.rs:634-714 | a value is accepted iff no keyword is violated at any place reached through properties and items, whatever the order of the checks |
| SchemaTheorems.RejectionIsJustified | agent-platform/crates/agent-core/src/traits.rs:634-714 | a rejection comes with a path at which the reported reason really holds |
| SchemaTheorems.ViolationIsRejected | agent-platform/crates/agent-core/src/traits.rs:634-714 | a violation anywhere, however deep, makes the whole value rejected |
| SchemaTheorems.UnknownKeywordsAreIgnored | agent-platform/crates/agent-core/src/traits.rs:642-714 | two schemas that agree on the seven keywords, in themselves and in all their subschemas, accept the same values |
| SchemaTheorems.ChecksMean | agent-platform/crates/agent-core/src/traits.rs:642-713 | each local check fails exactly when its keyword is violated as the declarative reading has it |
| SchemaTheorems.TypeMeans | agent-platform/crates/agent-core/src/traits.rs:642-655 | a type name is met iff no kind of value answers to it, or this value does; integers fit 64 bits |
| ToolPolicy.EffectiveIffCallable | agent-platform/crates/agent-core/src/model.rs:397-402 | a tool is in the effective set of a request iff a call of it validates, and then its spec is read-only, allowed, not denied and requested |
| ToolPolicy.RequestPassesIffEffective | agent-platform/crates/agent-core/src/model.rs:455-471 | a request passes iff all its tools are effective |
| ToolPolicy.NarrowedRequestPasses | agent-platform/crates/agent-core/src/model.rs:384-402 | what a policy narrows a request to is accepted by that policy |
| ToolPolicy.CallableIff | agent-platform/crates/agent-core/src/model.rs:441-497 | a call is accepted iff its tool was requested, is allowed and not denied, and its first declared spec, if it has one, is read-only; each of the three errors has its case |
| ToolPolicy.DeclaredSpecMeans | agent-platform/crates/agent-core/src/model.rs:448-452 | the spec of a tool is the first one declared for it, or the read-only default |
| ToolPolicy.EffectiveIffUsable | agent-platform/crates/agent-core/src/model.rs:384-402 | a tool is effective for a request iff it was requested and the policy lists let it be used |
| ToolPolicy.EffectiveInOrder | agent-platform/crates/agent-core/src/model.rs:384-402 | the effective tools are the allowed ones that may be used and were requested, as often and in the order as they are allowed |
| ToolPolicy.RequestPassesIffUsable | agent-platform/crates/agent-core/src/model.rs:455-471 | a request passes iff the policy lists let every tool of it be used |
| StepPlan.CheckShape | agent-platform/crates/agent-core/src/traits.rs:342-369 | no error iff there are steps, the trace ids agree and every step is named and unique; otherwise the first fault |
| StepPlan.ResolveDependencies | agent-platform/crates/agent-core/src/traits.rs:383-399 | the loop over dependencies finds each one's output ref, or none, as the recursive specification says |
| StepPlan.RunStep | agent-platform/crates/agent-core/src/traits.rs:400-553 | one iteration produces the outcome the specification gives for that position |
| StepPlan.TakeStep | agent-platform/crates/agent-core/src/traits.rs:382-554 | an iteration carries the recorded steps, summaries, refs, last output and failure flag one position further, or returns the error of a step that ends the plan |
| StepPlan.ExecutePlan | agent-platform/crates/agent-core/src/traits.rs:335-579 | the executor refuses a malformed plan with its first fault, fails with the error of the first step that ends the plan or for lack of output, and otherwise returns the recorded run |
| StepPlanTheorems.CompletesIff | agent-platform/crates/agent-core/src/traits.rs:400-539 | a step completes iff its dependencies completed strictly earlier, it is called, and its call, schema and output ref succeed |
| StepPlanTheorems.CompletedRefMeans | agent-platform/crates/agent-core/src/traits.rs:376-398 | a ref is known iff an earlier step of that id completed, and is that step's |
| StepPlanTheorems.DependenciesMean | agent-platform/crates/agent-core/src/traits.rs:385-412 | dependencies resolve iff every one of them completed at an earlier position |
| StepPlanTheorems.CallsCarryDependencyOutputs | agent-platform/crates/agent-core/src/traits.rs:441-458 | the client is told, in order, the output ref of each step depended on |
| StepPlanTheorems.CallsAreScoped | agent-platform/crates/agent-core/src/traits.rs:459-476 | every tool handed to a step was requested, and is read-only and effective under both the contract and the step's policy |
| StepPlanTheorems.SecondScopeCheckPasses | agent-platform/crates/agent-core/src/traits.rs:474-476 | the second scope validation of the loop never fails |
| StepPlanTheorems.SuccessMeans | agent-platform/crates/agent-core/src/traits.rs:556-578 | on success every step is recorded once in order with the status it earned, every failed one has the Continue policy, the flag is set iff one failed, and the output is that of the last completed step |
| StepPlanOutcomes.FailsIff | agent-platform/crates/agent-core/src/traits.rs:382-554 | a step fails iff a dependency is not done, or the client is called and errs, or its output violates the schema somewhere, or has no ref |
| StepPlanOutcomes.FailuresAreNamed | agent-platform/crates/agent-core/src/traits.rs:382-554 | the code, the error and the recorded step of each of these failures |
| StepPlanOutcomes.AbortsIff | agent-platform/crates/agent-core/src/traits.rs:413-476 | a step ends the plan outright iff its dependencies are done and no contract of its profile and version lets all its tools be used |
| StepPlanOutcomes.AbortsAreNamed | agent-platform/crates/agent-core/src/traits.rs:413-476 | the error of each of these: no contract, another version, a refused tool |
| StepPlanOutcomes.CallMadeIff | agent-platform/crates/agent-core/src/traits.rs:413-494 | the client is called iff the dependencies are done and the step is callable, told by the contracts alone |
| StepPlanOutcomes.CallMeans | agent-platform/crates/agent-core/src/traits.rs:426-494 | what the client is given: the policy and schema of the step or of its contract, the requested tools as the step policy narrows them, the first dependency as input |
| StepPlanOutcomes.SummariesAreNamed | agent-platform/crates/agent-core/src/traits.rs:495-554 | a recorded step is summarized with its status and the ref or code that belongs to it |
| StepPlanOutcomes.ExecuteGoingOn | agent-platform/crates/agent-core/src/traits.rs:540-566 | a plan all of whose steps are callable and go on after a failure never returns the error of a step, and returns an output iff some step completed |
| SseStream.SseParser.HandleLine | agent-platform/crates/agent-runtime/src/lib.rs:4041-4083 | one line changes content, events, number and tool calls as specified, or reports a malformed event |
| SseStream.SseParser.HandleEvent | agent-platform/crates/agent-runtime/src/lib.rs:4055-4082 | one parsed event adds its tool calls and its content delta, if not empty, under the next number |
| SseStream.SseParser.HandleLines | agent-platform/crates/agent-runtime/src/lib.rs:4024-4039 | all complete lines are consumed and the rest is kept, or flushed at the end |
| SseStream.ReadStream | agent-platform/crates/agent-runtime/src/lib.rs:941-1018 | the reading loop refines the functional stream over the chunks |
| SseStream.NoNewlineIsLeft | agent-platform/crates/agent-runtime/src/lib.rs:4030-4033 | between chunks no complete line is ever pending |
| SseTheorems.FeedSplits | agent-platform/crates/agent-runtime/src/lib.rs:4030-4033 | feeding a concatenation is feeding the first part, and then the second after what was left over |
| SseTheorems.SuccessIgnoresChunking | agent-platform/crates/agent-runtime/src/lib.rs:962-1018 | whether a stream succeeds, and what it delivers, is the same for every chunking of its text |
| SseTheorems.ChunkingIsInvisibleIff | agent-platform/crates/agent-runtime/src/lib.rs:962-1011 | the whole outcome, error included, is the same for all chunkings iff the text has no tool call before a malformed line |
| SseTheorems.StreamDeliversDeltas | agent-platform/crates/agent-runtime/src/lib.rs:3671-3701 | the content is the trimmed concatenation of the deltas, and event i has number i through schema-partial and final |
| SseMeaning.EventAddsItsText | agent-platform/crates/agent-runtime/src/lib.rs:4055-4082 | an event adds exactly its text: the string at choices[0].delta.content, without anything there the one of message.content, and otherwise none; one numbered delta carries it unless it is empty |
| SseMeaning.EveryEventHasOneText | agent-platform/crates/agent-runtime/src/lib.rs:4055-4062 | every event has exactly one text |
| SseMeaning.EventAddsItsCalls | agent-platform/crates/agent-runtime/src/lib.rs:4085-4131 | an event adds exactly the calls that its tool_calls and function_call members stand for, in order |
| SseStreamMeaning.StreamMeans | agent-platform/crates/agent-runtime/src/lib.rs:941-1018 | however its text is cut, a stream succeeds iff all data lines parse, no event asks for a tool and the texts are not blank; it then delivers the texts of its data lines, in order and trimmed, one numbered delta for each that is not empty; each failure has its case |
| SseWitness.FaultIsReached | agent-platform/crates/agent-runtime/src/lib.rs:4024-4083 | a parser and a text with a tool call before a malformed line |
| SseWitness.ErrorsDiffer | agent-platform/crates/agent-runtime/src/lib.rs:962-1011 | that text in one chunk is malformed, and cut between its lines is refused for the tool call |
| JsonExtract.ScanFrom | agent-platform/crates/agent-runtime/src/lib.rs:5210-5242 | the inner loop finds the index at which the string- and escape-aware depth first comes back to zero |
| JsonExtract.FindBalanced | agent-platform/crates/agent-runtime/src/lib.rs:5205-5245 | the two loops compute the first accepted candidate |
| JsonExtractTheorems.FirstCandidateMeans | agent-platform/crates/agent-runtime/src/lib.rs:5205-5245 | on any text: the candidate of the leftmost brace whose candidate parses to an object, or none iff there is none |
| JsonExtractTheorems.ScanClosesAtLastBrace | agent-platform/crates/agent-runtime/src/lib.rs:5213-5239 | for every JSON object text and anything after it the scan first reaches depth zero at the object's last brace |
| JsonExtractTheorems.ExtractsTheObject | agent-platform/crates/agent-runtime/src/lib.rs:5135-5159 | for any JSON object the parser accepts, any prefix without an opening brace and any suffix, the result is exactly the object's text; it is found directly iff only white space surrounds it |
| JsonExtractTheorems.FencedIsLead | agent-platform/crates/agent-runtime/src/lib.rs:5143-5156 | what the fenced strategy returns is what the brace scan would find |
| JsonExtractTheorems.TrimmedObject | agent-platform/crates/agent-runtime/src/lib.rs:5136-5142 | a trimmed text the parser accepts is the object's text and nothing else |
| JsonExtractLeftmost.ExtractsTheLeftmost | agent-platform/crates/agent-runtime/src/lib.rs:5135-5159 | on any text whatever the extractor gives the leftmost object text standing in it, and nothing iff there is none; it is named direct iff the trimmed text is that object |
| JsonExtractLeftmost.FencedIff | agent-platform/crates/agent-runtime/src/lib.rs:5143-5156 | it is named fenced iff the trimmed text is no object itself but one between fences, tagged or not |
| ToolLoop.ChatCompletion | agent-platform/crates/agent-runtime/src/lib.rs:710-837 | at most max_tool_rounds + 1 prompts, each the one before it plus one answered turn; the fall-through error is unreachable; the loop stops at a named place, and there the calls answered, the tools started, the log, and the numbers of budget checks and appends with the one that failed are exactly those that belong to the replies so far |
| ToolLoop.AskModel | agent-platform/crates/agent-runtime/src/lib.rs:722-727 | the model is asked iff the budget lasts, with exactly the messages so far; a failed reply or check stops the loop there |
| ToolLoop.TakeReply | agent-platform/crates/agent-runtime/src/lib.rs:728-831 | a reply without calls ends the loop with its trimmed content or for lack of it; one with calls is run, or refused when the rounds are used up |
| ToolLoop.RunCalls | agent-platform/crates/agent-runtime/src/lib.rs:766-823 | a round answers the calls in order, or stops at a named call with exactly the calls before it answered |
| ToolLoop.RunCall | agent-platform/crates/agent-runtime/src/lib.rs:768-822 | one call adds its call and result events to the log and one tool message, or stops at a named place with the log, checks and appends that belong there |
| ToolLoop.RunTool | agent-platform/crates/agent-runtime/src/lib.rs:839-894 | the executor is called iff the call is admitted, and the result is what the checks before and after it leave |
| ToolLoop.AuditOutcome | agent-platform/crates/agent-runtime/src/lib.rs:785-822 | a finished tool leaves a result event of its call unless the budget is used up or the sink fails |
| ToolLoop.AuditFailure | agent-platform/crates/agent-runtime/src/lib.rs:796-809 | a failed call leaves an error event of its own and its cause, unless the sink fails |
| ToolLoop.RefuseCalls | agent-platform/crates/agent-runtime/src/lib.rs:730-765 | past the last round every call of the reply is logged with its own error event, in order, up to the append that fails |
| ToolLoop.AdmittedIff | agent-platform/crates/agent-runtime/src/lib.rs:847-857 | a call is admitted iff its tool is effective for the request and its arguments parse and fit the input schema |
| ToolLoop.RefusedCallsDoNotRun | agent-platform/crates/agent-runtime/src/lib.rs:847-857 | the outcome of a call that is not admitted does not depend on the executor |
| ToolLoop.ExecutedCallIsIdentified | agent-platform/crates/agent-runtime/src/lib.rs:839-894 | a call that gave a result is audited under its own id and name, never redacted |
| ToolLoopTheorems.StoppedLogFits | agent-platform/crates/agent-runtime/src/lib.rs:735-817 | wherever the loop stops its log is well-formed: closed, open, failing or failing and open as belongs to that place |
| ToolLoopTheorems.AuditLogForm | agent-platform/crates/agent-runtime/src/lib.rs:735-817 | a well-formed log is answered calls followed by nothing, by one open call, or by failed calls, the last of them perhaps open; every result and error directly follows its own call |
| ToolLoopTheorems.EndsOpenIff | agent-platform/crates/agent-runtime/src/lib.rs:795-817 | a call stays without result and error iff the budget is used up right after its tool finished, or the sink fails right after its call event |
| ToolLoopTheorems.ReliableSinkEndsOpenIff | agent-platform/crates/agent-runtime/src/lib.rs:811 | with a sink that works, a call stays open iff the failed check ends the run with one tool started and not answered |
| ToolLoopTheorems.ReliableRunsEndClosed | agent-platform/crates/agent-runtime/src/lib.rs:722-832 | with a budget that lasts and a sink that works no call stays open, and failed calls are logged iff the run fails for a tool or for too many rounds |
| ToolLoopTheorems.RunWitness | agent-platform/crates/agent-runtime/src/lib.rs:811 | a run of the loop in which the fourth budget check fails leaves a log of one call event and nothing else |
| ToolLoopTheorems.SuccessRanWhatWasAsked | agent-platform/crates/agent-runtime/src/lib.rs:766-831 | on success the tools started, answered and logged are the calls of all replies, in order |
| ToolLoopTheorems.OnlyAskedCallsRun | agent-platform/crates/agent-runtime/src/lib.rs:767-808 | however the loop stops, the tools started are the first of the calls the model asked for, and each was admitted |
| ToolLoopTheorems.ConversationMeans | agent-platform/crates/agent-runtime/src/lib.rs:766-821 | each prompt is the one before it, the calls of the reply to it, and one tool message per call in order with its id, name, output ref and summary |
| ToolLoopTheorems.AdmissionMeans | agent-platform/crates/agent-runtime/src/lib.rs:847-857 | a call is admitted iff the policy lists let it be made and its arguments parse and violate the input schema nowhere; each refusal has its case |
| ToolLoopTheorems.DeliveryMeans | agent-platform/crates/agent-runtime/src/lib.rs:871-893 | a result is delivered iff the executor succeeds, a required ref is there and the output violates its schema nowhere |
| ToolLoopTheorems.ToolCallMeans | agent-platform/crates/agent-runtime/src/lib.rs:839-894 | a tool call succeeds iff it may run and its result may be delivered; the value is the output of the executor with its ref or one of the call id; each failure is named |
| ToolLoopTheorems.IdentityIsShownIff | agent-platform/crates/agent-runtime/src/lib.rs:3939-3952 | the audit names a call iff the policy lists let it be made, and otherwise withholds id and name |
| ToolLoopTheorems.OutcomeMeans | agent-platform/crates/agent-runtime/src/lib.rs:710-838 | a run ends for its budget iff its last check failed, for its sink iff its last append failed, and otherwise for the tool, the model or the rounds |
| ToolLoopTheorems.AnswerMeans | agent-platform/crates/agent-runtime/src/lib.rs:826-831 | a run succeeds iff its last reply has no calls and some text, which is the answer, trimmed, with the number of replies before it |
| RetryLoop.ChatWithRetry | agent-platform/crates/agent-runtime/src/lib.rs:1609-1707 | at most max_attempts requests, all finished by the earlier of both budgets; each request gets exactly the time left; the total sleep is bounded; the result follows from the last request or the budget that ended it |
| RetryLoop.Attempt | agent-platform/crates/agent-runtime/src/lib.rs:1623-1700 | one iteration ends the loop with an explained result or leaves one more failed and slept-after request |
| RetryLoop.SendRequest | agent-platform/crates/agent-runtime/src/lib.rs:1624-1646 | a request is made iff a budget is left and then gets exactly what both budgets leave; otherwise the error names the exhausted budget |
| RetryLoop.PlanSleep | agent-platform/crates/agent-runtime/src/lib.rs:1679-1699 | the loop sleeps iff the delay ends before both budgets do; the error tells which one it would overrun |
| RetryLoop.TimeoutIsWhatIsLeft | agent-platform/crates/agent-runtime/src/lib.rs:3783-3821 | a timeout exists iff time is left, and is exactly what is left of the smaller budget |
| RetryLoop.DelayFitsIff | agent-platform/crates/agent-runtime/src/lib.rs:3823-3841 | the check passes iff the sleep ends before both budgets do |
| RetryLoop.DelayIsBounded | agent-platform/crates/agent-runtime/src/lib.rs:4513-4518 | a delay is at most base times attempt plus 18 ms, truncation and saturation included |
| RetryLoop.DelayIs | agent-platform/crates/agent-runtime/src/lib.rs:4513-4518 | a delay is the base times the attempt wrapped at 32 bits, plus the jitter, and at most the longest duration |
| RetryLoop.DelaysGrow | agent-platform/crates/agent-runtime/src/lib.rs:4513-4518 | without wrap and overflow a later attempt waits longer by the base for each attempt between, up to the jitter |
| RetryLoop.SleepBoundClosedForm | agent-platform/crates/agent-runtime/src/lib.rs:1679-1699 | n sleeps take at most base * n * (n + 1) / 2 + 18 ms * n |
| RateLimiter.GatewayRateLimiter.Check | agent-platform/crates/tonglingyu-gateway/src/auth.rs:59-101 | a check evicts every expired bucket and counts this subject once, or refuses it; limit zero is unlimited |
| RateLimiter.EvictionChangesNothing | agent-platform/crates/tonglingyu-gateway/src/auth.rs:73-100 | over every run with a monotone clock each subject gets the decisions of a counter of its own |
| RateLimiter.NoStaleBuckets | agent-platform/crates/tonglingyu-gateway/src/auth.rs:73-83 | after each check no bucket is as old as a window |
| RateLimiter.FewerThanTwiceTheLimit | agent-platform/crates/tonglingyu-gateway/src/auth.rs:80-94 | in any half-open interval of one window a subject gets fewer than 2 * limit calls through |
| RateLimiter.BoundIsAttained | agent-platform/crates/tonglingyu-gateway/src/auth.rs:80-94 | for every limit and window a run gets 2 * limit - 1 through, so the bound is the best |
| RateLimiter.RefusedIffWindowIsFull | agent-platform/crates/tonglingyu-gateway/src/auth.rs:80-101 | a call is refused iff it comes less than a window after the opening of its subject and as many calls as the limit came since; the numbers left and the seconds to wait are exact; told by the list of calls alone |
| RateLimiter.RefusedIffLimitWasAllowed | agent-platform/crates/tonglingyu-gateway/src/auth.rs:80-94 | a call is refused iff its window is open and as many calls as the limit were allowed in it; windows open at allowed calls only |
| RateLimiter.NextWindowOpens | agent-platform/crates/tonglingyu-gateway/src/auth.rs:80-88 | the first call at least a window after the opening is allowed and opens the next window, whatever was refused in between |
| DraftGate.FoundIffOccurs | agent-platform/crates/tonglingyu-gateway/src/draft_revision.rs:782-798 | the search finds something iff a forbidden key occurs at some depth |
| DraftGate.SnapshotPackage | agent-platform/crates/tonglingyu-gateway/src/draft_revision.rs:704-733 | the evidence ids are exactly the package's own, its cards' and its claim map's |
| DraftContract.EvaluateDraft | agent-platform/crates/tonglingyu-gateway/src/draft_revision.rs:339-439 | accepted iff the draft is well-formed, about this package, without a forbidden key at any depth, every claim complete and citing only package evidence; an error is reported iff its fault is there; each flag says what it names |
| DraftContract.ReadDraft | agent-platform/crates/tonglingyu-gateway/src/draft_revision.rs:364-420 | the errors and flags of a draft that was read are exactly its faults |
| DraftContract.CheckPackage | agent-platform/crates/tonglingyu-gateway/src/draft_revision.rs:343-359 | the errors of package and forbidden keys are exactly the ones that are due |
| DraftContract.AcceptedIffNoErrors | agent-platform/crates/tonglingyu-gateway/src/draft_revision.rs:421-423 | there is no error at all iff the draft is acceptable |
| ReviewFlow.DecisionMeans | agent-platform/crates/tonglingyu-gateway/src/draft_revision.rs:510-599 | the decision passes iff both reviewers pass an accepted draft without high risk, and passes with a warning iff the LLM reviewer fails it for a low-risk reason only |
| ReviewFlow.ReasonMeans | agent-platform/crates/tonglingyu-gateway/src/draft_revision.rs:547-568 | the recorded reason of each decision, told by the words of the review and the issues |
| ReviewFlow.RevisionsAskedFor | agent-platform/crates/tonglingyu-gateway/src/draft_revision.rs:569-577 | revisions are asked for iff required: those of the review, or a stand-in when it names none |
| ReviewFlow.CheckRevision | agent-platform/crates/tonglingyu-gateway/src/draft_revision.rs:618-650 | each error is raised exactly when it is due, so a revision record raises none iff it is readable, current, in sequence, about this package, complete and changes no package |
| ReviewFlow.ReviseLoop | agent-platform/crates/tonglingyu-gateway/src/draft_revision.rs:601-688 | no errors iff the records are sound and at most two; the terminal status and the permission for a final answer exactly by case |
| ReviewFlow.ReadReview | agent-platform/crates/tonglingyu-gateway/src/draft_revision.rs:447-468 | the LLM review counts iff it has no forbidden key, parses, and has the right version and a confidence in range |
| ReviewFlow.EvaluateReviewerFlow | agent-platform/crates/tonglingyu-gateway/src/draft_revision.rs:441-500 | a final answer is allowed iff the draft is acceptable, the revisions sound, and the reviews passed directly, with a low-risk warning, or after a revision; the override violation is exactly a high-risk false pass |
| RuleFileCache.RuleFileCache.GetCatalog | agent-platform/crates/tonglingyu-gateway/src/context_rules.rs:313-342 | the call answers and updates path, time, length and catalog as the specified cache does |
| RuleFileCache.CachedIsUncached | agent-platform/crates/tonglingyu-gateway/src/context_rules.rs:313-342 | over every run in which path, time and length determine the content, the cached call answers as reading and parsing would |
| RuleFileCache.StaleIff | agent-platform/crates/tonglingyu-gateway/src/context_rules.rs:328-341 | in every run the answer is wrong iff the load that last filled the entry had the same path, time and length and parsed to something else |
| RuleFileCache.StaleIsReached | agent-platform/crates/tonglingyu-gateway/src/context_rules.rs:328-332 | a file rewritten with the same time and length is answered with its old content |
| RuleFileCache.FailuresAndRemoval | agent-platform/crates/tonglingyu-gateway/src/context_rules.rs:320-341 | a failed load leaves the cache as it was; taking the path away restores the default |
| RuleFileCache.CatalogsAreUncached | agent-platform/crates/tonglingyu-gateway/src/context_rules.rs:395-435 | the joint call answers as reading all files would, and each cache is left as its own history says |
| ActionItems.ActionItemStore.Observe | agent-platform/crates/tonglingyu-gateway/src/answer_quality.rs:780-871 | the row and the event of an observation are written as the store specification says |
| ActionItems.ActionItemStore.Handle | agent-platform/crates/tonglingyu-gateway/src/answer_quality.rs:486-559 | an admin transition updates the row and inserts its event, or fails in the program's order of checks |
| ActionItemsTheorems.UpsertKeepsInvIff | agent-platform/crates/tonglingyu-gateway/src/answer_quality.rs:834-910 | an observation keeps the log replayable iff the event it owes, if any, has a new id |
| ActionItemsTheorems.TransitionKeepsInvIff | agent-platform/crates/tonglingyu-gateway/src/answer_quality.rs:511-556 | an accepted transition keeps the log replayable iff its event id is new; with a repeated one the call fails after the status has changed |
| ActionItemsTheorems.RepeatedReviewIsReached | agent-platform/crates/tonglingyu-gateway/src/answer_quality.rs:511-556 | an item reviewed, requeued and reviewed again within one tick: the last call changes the status and fails |
| ActionItemsTheorems.RunKeepsTypes | agent-platform/crates/tonglingyu-gateway/src/answer_quality.rs:791-796 | in every run the id of an item is made of the action type of its own route |
| ActionItemsTheorems.ReplaysThroughoutIffFresh | agent-platform/crates/tonglingyu-gateway/src/answer_quality.rs:486-559 | a run keeps its log replayable at every point iff no operation of it reuses an event id |
| ActionItemsTheorems.RunReplays | agent-platform/crates/tonglingyu-gateway/src/answer_quality.rs:780-911 | in every time-ordered run each item's events chain from status to status and replay to the stored one, and a linked item has both link fields |
| ActionItemsTheorems.UpsertedItemMeans | agent-platform/crates/tonglingyu-gateway/src/answer_quality.rs:805-869 | an observation only requeues closed or rejected items, owes an event exactly when the status changes or the item is new, and leaves links alone |
| ActionItemsTheorems.AtMostFiveItems | agent-platform/crates/tonglingyu-gateway/src/answer_quality.rs:719-777 | in every run an observation has at most five items, one for each action type its routes lead to |
| ActionItemsMeaning.SucceedsIff | agent-platform/crates/tonglingyu-gateway/src/answer_quality.rs:486-559 | a transition succeeds iff the words of the request and the stored row allow some action with some end, and no event of that item, action, end and time is there |
| ActionItemsMeaning.TransitionMeans | agent-platform/crates/tonglingyu-gateway/src/answer_quality.rs:486-559 | what an allowed transition leaves in the row and the log, and that any other changes nothing |
| ActionItemsMeaning.RefusedIff | agent-platform/crates/tonglingyu-gateway/src/answer_quality.rs:490-510 | each refusal has its own case, in the order of the checks |
| ActionItemsMeaning.TargetMeans | agent-platform/crates/tonglingyu-gateway/src/answer_quality.rs:1019-1030 | which action leads from which status to which, told by where it ends |
| ActionItemsMeaning.RouteMeans | agent-platform/crates/tonglingyu-gateway/src/answer_quality.rs:719-777 | an observation takes the first route in rank that its owner or tags call for |
| ActionItemsMeaning.ObservationMeans | agent-platform/crates/tonglingyu-gateway/src/answer_quality.rs:780-911 | the row and the event an observation leaves; other rows and all events stay |
| ActionItemsMeaning.BoundedMeans | agent-platform/crates/tonglingyu-gateway/src/answer_quality.rs:1077-1084 | a text field is kept trimmed and cut to its length, and dropped iff it is blank |
| RunLifecycle.RunsAreBounded | agent-platform/crates/agent-core/src/model.rs:1772-1803 | a run with r requeues and a returns from approval makes at most 9 * (r + 1) + 2 * a transitions |
| RunLifecycle.BoundIsAttained | agent-platform/crates/agent-core/src/model.rs:1772-1803 | for all r and a some legal run makes exactly that many |
| RunLifecycle.CompletionVisitsEverything | agent-platform/crates/agent-core/src/model.rs:1776-1788 | a completed run has, since its last Queued, visited Claimed, ContextBuilt, PolicyChecked, Executing and Validating in order |
| RunLifecycle.RequestsAreAcyclic | agent-platform/crates/agent-core/src/model.rs:1742-1770 | a request never returns to a status and takes at most six transitions |
| RunLifecycle.FulfilledWasApproved | agent-platform/crates/agent-core/src/model.rs:1749-1754 | a fulfilled request was approved |
| RunLifecycle.RunStepByTarget | agent-platform/crates/agent-core/src/model.rs:1772-1793 | the run table read backwards: which statuses lead to each |
| RunLifecycle.RestsIff | agent-platform/crates/agent-core/src/model.rs:1772-1793 | a run comes to rest in Completed and Cancelled only |
| RunLifecycle.RequestStepByTarget | agent-platform/crates/agent-core/src/model.rs:1742-1760 | the request table read backwards |
| RunLifecycle.RequestRestsIff | agent-platform/crates/agent-core/src/model.rs:1742-1760 | a request comes to rest exactly in the five statuses that end it |
| AuthPolicy.AuthorizeIsMonotone | agent-platform/crates/agent-core/src/policy.rs:84-222 | adding roles, allowlist entries or service actions never lowers the decision |
| AuthPolicy.AllowedIff | agent-platform/crates/agent-core/src/policy.rs:84-230 | an action is allowed exactly when every common condition holds and the subject is entitled to the action itself |
| AuthPolicy.RuleAllowsIffEntitled | agent-platform/crates/agent-core/src/policy.rs:149-221 | the action's own rule allows it iff the subject has one of the roles, or the claim, that kind of action asks for |
| AuthPolicy.ApprovalIff | agent-platform/crates/agent-core/src/policy.rs:84-222 | an action waits for approval exactly when the subject is admitted and the risk is high, or an approval is asked for, or only an owner is missing; all else that is not allowed is denied |
| AuthPolicy.ServiceMeans | agent-platform/crates/agent-core/src/model.rs:707-711 | the service may call an action iff some entry is a beginning of it followed by stars only |
| AuthPolicy.AccessMeans | agent-platform/crates/agent-core/src/model.rs:713-741 | a subject may access a resource iff one of four roles, the allowlist or an assignment says so |
| AuthPolicy.AccessGrows | agent-platform/crates/agent-core/src/model.rs:713-741 | resource access is monotone in roles and allowlist |
| AuthPolicy.EntryIsPrefixGrant | agent-platform/crates/agent-core/src/model.rs:707-711 | every service entry, with or without a star, allows exactly the actions that begin with its part before trailing stars |
| AuthPolicy.GrantsEverythingIff | agent-platform/crates/agent-core/src/model.rs:707-711 | an entry allows every action iff it is empty or stars only |
| AuthPolicy.StarlessEntriesGrantMore | agent-platform/crates/agent-core/src/model.rs:707-711 | entries without a star that allow another action than their own |
| ControlFields.Memory.StripRecursive | open-webui/functions/agent_identity_bridge_filter.py:206-215 | in place, exactly the dicts reachable without going through a forbidden key lose exactly their forbidden keys |
| ControlFields.Memory.StripGatewayControlFields | open-webui/functions/agent_identity_bridge_filter.py:190-203 | in place, exactly the body, the dicts its recursive containers reach and its user dict lose exactly their forbidden keys |
| ControlFieldsTheorems.StrippedPaths | open-webui/functions/agent_identity_bridge_filter.py:206-215 | after stripping a tree a path exists iff it did and crosses no forbidden key, and leads to the stripped subtree |
| ControlFieldsTheorems.StrippedContents | open-webui/functions/agent_identity_bridge_filter.py:206-215 | stripping the heap is stripping the tree a value stands for, whatever is shared |
| ControlFieldsTheorems.UntouchedContents | open-webui/functions/agent_identity_bridge_filter.py:195-203 | a value that shares no dict with what was stripped is as it was |
| ControlFieldsTheorems.StripTreeIsIdempotent | open-webui/functions/agent_identity_bridge_filter.py:206-215 | stripping a tree twice is stripping it once |
| ControlFieldsTheorems.FilteredBody | open-webui/functions/agent_identity_bridge_filter.py:190-203 | for a body without sharing the result is the tree with the forbidden keys gone at top level, in user and at any depth of the recursive containers, and all else kept |
| ControlFieldsTheorems.FilteringIsIdempotent | open-webui/functions/agent_identity_bridge_filter.py:190-215 | filtering twice is filtering once, with or without sharing |
| ControlFieldsTheorems.NothingForbiddenIsLeft | open-webui/functions/agent_identity_bridge_filter.py:190-215 | with or without sharing no forbidden key is left where the filter looks, and no other dict changes |

## Left out

- HTTP, routing, header parsing, environment, metrics, and the text of error messages.
- The dry-run handler of the action gateway and the parts of a logged event that replay does not read.
- Partial writes of a log line, and a handler dropped in the middle of an append: an append happens or not, and one that was reported to succeed is in the file, although the program does not flush it before it releases the lock.
- One configuration serves a whole run of the action gateway: a restart with another one is not modelled.
- ActionGateway.LoadLog: an unreadable log file is not modelled, and a missing one is the empty one.
- `new_id` is taken to give unused ids, event ids of fixed length; digests of action items and their events are taken to be injective.
- StepPlan.ExecutePlan: the plan and summaries written into the output's metadata are returned as values instead, and the step messages are the dependency refs they carry.
- SseStream.ReadStream: chunks are decoded text, so a character split between two chunks is not modelled; nor is the audit trail of a stream's unexpected tool calls.
- JsonExtractTheorems.ExtractsTheObject: assumes of the parser only that what it accepts is an object with white space around it, and that it accepts this object (its nesting limit); the depth counter does not overflow; the removal of think blocks before the search is not modelled.
- RetryLoop.ChatWithRetry: only requests and sleeps take time, and a request never overruns its timeout, so the second look at the deadline before a request, which then cannot fail, is dropped; marking a provider unhealthy and retry instructions are not modelled.
- ToolLoop.ChatCompletion: the budget is one yes or no per check; the metadata of answers and of tool calls is not modelled.
- RateLimiter.GatewayRateLimiter.Check: is handed the time; that the clock is read before the lock is taken, so that two checks may see times out of order, is not modelled. `retry_after_secs` is rounded down, so it is not always long enough.
- DraftContract.EvaluateDraft: says which errors there are, not their order.
- ReviewFlow.ReviseLoop: likewise.
- SchemaTheorems.RejectionIsJustified: of several violations the reported one is real; that it is the first in the order of the checks is not stated.
- Confidences are real numbers, so not-a-number is not modelled; JSON floats likewise.
- The profile observation contract of the draft gate and the observation table of the answer-quality store.
- ActionItemsTheorems.RunReplays: writes are not interrupted by database errors other than the repeated event id; events are kept in the order they are written, while the program reads them back sorted by the text of their times.
- ControlFieldsTheorems.FilteredBody: is for bodies whose kept members share no dict with the stripped ones, as bodies decoded from JSON text are; the other theorems need no such thing. Cyclic bodies are not modelled.
- Session transitions, observer assessment, `conversation_state.rs`, `product_registry.rs`, the natural-language rules of `context_rules.rs`, and `llm_*.rs`.
