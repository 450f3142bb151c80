/** The bounded tool-calling loop of a profile chat completion, with its audit trail. */
module ToolLoop {
  import opened Wrappers
  import opened Json
  import opened ToolPolicy
  import Schema
  import Text

  datatype ToolCall = ToolCall(id: string, name: string, arguments: string)

  datatype ToolResult = ToolResult(outputRef: Option<string>, output: Json)

  /** `summarize_json`: what the model is told of an output in place of the output itself. */
  datatype Summary = ObjectKeys(n: nat) | ArrayLength(n: nat) | StringLength(n: nat) | NullValue | BoolValue
      | NumberValue

  datatype Message =
    | Prompt(text: string)
    | AssistantToolCalls(calls: seq<ToolCall>)
    | ToolMessage(callId: string, toolName: string, outputRef: Option<string>, summary: Summary)

  datatype ModelReply = ModelFailed | Reply(content: Option<string>, toolCalls: seq<ToolCall>)

  /** Identities are present only for calls the policy allows; otherwise they are redacted. */
  datatype AuditEvent =
    | CallEvent(id: Option<string>, tool: Option<string>)
    | ResultEvent(callId: string, toolName: string)
    | ErrorEvent(id: Option<string>, tool: Option<string>)

  datatype ToolFailure =
    | NoContract | Refused(tool: ToolError) | ArgumentsMalformed | ArgumentsInvalid(reason: Schema.Reason)
    | ExecutorFailed | OutputRefMissing | OutputInvalid(reason: Schema.Reason)

  datatype LoopError =
    | BudgetExceeded | ModelError | NoContent | TooManyRounds | SinkFailed | ToolFailed(cause: ToolFailure)
    | NoFinalAnswer

  datatype Answer = Answer(content: string, toolRounds: nat)

  datatype Profile = Profile(contract: Option<Policy>, requested: seq<string>, maxToolRounds: nat)

  /** Everything the loop cannot predict: the model's k-th reply, what the k-th started tool does, the
      JSON parser, and whether the k-th budget check and the k-th audit append succeed. */
  datatype World = World(
    model: (nat, seq<Message>) -> ModelReply,
    executor: (nat, ToolCall, Json, ToolSpec) -> Result<ToolResult, ()>,
    parseJson: string -> Option<Json>,
    budget: nat -> bool,
    sink: nat -> bool)

  // ---------------------------------------------------------------- one tool call

  function AuditName(p: Profile, name: string): Option<string> {
    if p.contract.None? then None
    else
      var spec := ValidateToolCall(p.contract.value, name, p.requested);
      if spec.Ok? then Some(spec.value.name) else None
  }

  function AuditId(p: Profile, call: ToolCall): Option<string> {
    if AuditName(p, call.name).Some? then Some(call.id) else None
  }

  function CallOf(p: Profile, call: ToolCall): AuditEvent {
    CallEvent(AuditId(p, call), AuditName(p, call.name))
  }

  function ErrorOf(p: Profile, call: ToolCall): AuditEvent {
    ErrorEvent(AuditId(p, call), AuditName(p, call.name))
  }

  /** `parse_tool_arguments`. */
  function ParseArguments(w: World, arguments: string): Option<Json> {
    if Text.IsBlank(arguments) then Some(Obj([])) else w.parseJson(arguments)
  }

  datatype Admission = Admission(spec: ToolSpec, arguments: Json)

  /** The checks before the tool runs: policy, arguments, input schema. */
  function Admit(w: World, p: Profile, call: ToolCall): Result<Admission, ToolFailure> {
    if p.contract.None? then Err(NoContract)
    else
      var spec := ValidateToolCall(p.contract.value, call.name, p.requested);
      if spec.Err? then Err(Refused(spec.error))
      else
        var arguments := ParseArguments(w, call.arguments);
        if arguments.None? then Err(ArgumentsMalformed)
        else
          var verdict := Schema.Validate(spec.value.inputSchema, arguments.value);
          if verdict.Err? then Err(ArgumentsInvalid(verdict.error)) else Ok(Admission(spec.value, arguments.value))
  }

  /** The checks after it: output ref and output schema. */
  function Deliver(call: ToolCall, spec: ToolSpec, ran: Result<ToolResult, ()>): Result<ToolResult, ToolFailure> {
    match ran
    case Err(_) => Err(ExecutorFailed)
    case Ok(result) =>
      if spec.outputRefRequired && result.outputRef.None? then Err(OutputRefMissing)
      else
        var filled := if result.outputRef.Some? then result
                      else result.(outputRef := Some("runtime://tool-results/" + call.id));
        var verdict := Schema.Validate(spec.outputSchema, filled.output);
        if verdict.Err? then Err(OutputInvalid(verdict.error)) else Ok(filled)
  }

  /** `execute_runtime_tool_call`, when `started` tools have been started before. */
  function ExecuteToolCall(w: World, p: Profile, started: nat, call: ToolCall): Result<ToolResult, ToolFailure> {
    var admitted := Admit(w, p, call);
    if admitted.Err? then Err(admitted.error)
    else
      var spec := admitted.value.spec;
      Deliver(call, spec, w.executor(started, call, admitted.value.arguments, spec))
  }

  /** A call is admitted iff its tool is effective for the request, its arguments parse, and they
      satisfy the tool's input schema; it then runs under a read-only spec of its own name. */
  lemma AdmittedIff(w: World, p: Profile, call: ToolCall)
    ensures Admit(w, p, call).Ok? <==>
              && p.contract.Some?
              && call.name in EffectiveToolsForRequest(p.contract.value, p.requested)
              && ParseArguments(w, call.arguments).Some?
              && var spec := DeclaredSpec(p.contract.value.specs, call.name);
                 Schema.Validate(spec.inputSchema, ParseArguments(w, call.arguments).value).Ok?
    ensures Admit(w, p, call).Ok? ==>
              Admit(w, p, call).value.spec.readOnly && Admit(w, p, call).value.spec.name == call.name
  {
    if p.contract.Some? { EffectiveIffCallable(p.contract.value, p.requested, call.name); }
  }

  lemma ExecutedCallIsIdentified(w: World, p: Profile, started: nat, call: ToolCall)
    requires ExecuteToolCall(w, p, started, call).Ok?
    ensures CallOf(p, call) == CallEvent(Some(call.id), Some(call.name))
  {
    EffectiveIffCallable(p.contract.value, p.requested, call.name);
  }

  /** A call that is not admitted has the same outcome whatever the executor would do. */
  lemma RefusedCallsDoNotRun(w: World, w': World, p: Profile, started: nat, call: ToolCall)
    requires Admit(w, p, call).Err? && w'.parseJson == w.parseJson
    ensures ExecuteToolCall(w', p, started, call) == ExecuteToolCall(w, p, started, call)
  {
  }

  /** started tells whether the executor was called. */
  method RunTool(w: World, p: Profile, before: nat, call: ToolCall)
    returns (result: Result<ToolResult, ToolFailure>, started: bool)
    ensures result == ExecuteToolCall(w, p, before, call)
    ensures started <==> Admit(w, p, call).Ok?
  {
    var admitted := Admit(w, p, call);
    if admitted.Err? { return Err(admitted.error), false; }
    var spec := admitted.value.spec;
    var ran := w.executor(before, call, admitted.value.arguments, spec);
    return Deliver(call, spec, ran), true;
  }

  function SummaryOf(v: Json): Summary {
    match v
    case Obj(fields) => ObjectKeys(|fields|)
    case Arr(items) => ArrayLength(|items|)
    case Str(s) => StringLength(|s|)
    case Null => NullValue
    case Bool(_) => BoolValue
    case Num(_) => NumberValue
  }

  /** `runtime_tool_result_message`: the output itself is omitted. */
  function ResultMessage(call: ToolCall, result: ToolResult): Message {
    ToolMessage(call.id, call.name, result.outputRef, SummaryOf(result.output))
  }

  // ---------------------------------------------------------------- the conversation

  function Front<T>(s: seq<T>): seq<T>
    requires s != []
  {
    s[..|s| - 1]
  }

  function Last<T>(s: seq<T>): T
    requires s != []
  {
    s[|s| - 1]
  }

  /** The model's reply to the last of these prompts. */
  function LastReply(w: World, prompts: seq<seq<Message>>): ModelReply
    requires prompts != []
  {
    w.model(|prompts| - 1, Last(prompts))
  }

  function CallsOf(reply: ModelReply): seq<ToolCall> {
    if reply.Reply? then reply.toolCalls else []
  }

  /** All calls the model asked for in its replies to these prompts, in order. */
  function AskedIn(w: World, prompts: seq<seq<Message>>): seq<ToolCall> {
    if prompts == [] then [] else AskedIn(w, Front(prompts)) + CallsOf(LastReply(w, prompts))
  }

  /** The tool message that answers a call which was the tool number `started` to be started. */
  ghost predicate Answers(w: World, p: Profile, started: nat, call: ToolCall, m: Message) {
    var result := ExecuteToolCall(w, p, started, call);
    result.Ok? && m == ResultMessage(call, result.value)
  }

  /** A call message and the answers to its first n calls, in order. */
  ghost predicate IsTurnUpTo(w: World, p: Profile, started: nat, turn: seq<Message>, calls: seq<ToolCall>, n: nat) {
    && |turn| == 1 + n <= 1 + |calls|
    && turn[0] == AssistantToolCalls(calls)
    && forall i | 0 <= i < n :: Answers(w, p, started + i, calls[i], turn[i + 1])
  }

  ghost predicate IsTurn(w: World, p: Profile, started: nat, turn: seq<Message>, calls: seq<ToolCall>) {
    IsTurnUpTo(w, p, started, turn, calls, |calls|)
  }

  lemma TurnGrows(w: World, p: Profile, started: nat, turn: seq<Message>, calls: seq<ToolCall>, n: nat, m: Message)
    requires n < |calls| && IsTurnUpTo(w, p, started, turn, calls, n) && Answers(w, p, started + n, calls[n], m)
    ensures IsTurnUpTo(w, p, started, turn + [m], calls, n + 1)
  {
  }

  /** The first prompt is the start; each later one is the one before it and the answered turn of the
      calls the model made in reply. */
  ghost predicate IsNextPrompt(w: World, p: Profile, start: seq<Message>, prompts: seq<seq<Message>>,
      next: seq<Message>) {
    if prompts == [] then next == start
    else
      var prompt, calls := Last(prompts), CallsOf(LastReply(w, prompts));
      && calls != [] && prompt <= next
      && IsTurn(w, p, |AskedIn(w, Front(prompts))|, next[|prompt|..], calls)
  }

  ghost predicate IsConversation(w: World, p: Profile, start: seq<Message>, prompts: seq<seq<Message>>) {
    prompts == []
    || (IsConversation(w, p, start, Front(prompts)) && IsNextPrompt(w, p, start, Front(prompts), Last(prompts)))
  }

  lemma ConversationGrows(w: World, p: Profile, start: seq<Message>, prompts: seq<seq<Message>>, next: seq<Message>)
    requires IsConversation(w, p, start, prompts) && IsNextPrompt(w, p, start, prompts, next)
    ensures IsConversation(w, p, start, prompts + [next])
  {
    assert Front(prompts + [next]) == prompts;
  }

  // ---------------------------------------------------------------- where the loop can stop

  /** What a run leaves: the prompts sent, the calls whose result was logged, the calls whose tool was
      started, the audit log, and how many budget checks and appends were made. */
  datatype Trace = Trace(
    prompts: seq<seq<Message>>, answered: seq<ToolCall>, executed: seq<ToolCall>, log: seq<AuditEvent>,
    checks: nat, appends: nat)

  const EMPTY := Trace([], [], [], [], 0, 0)

  ghost predicate AllHold(ok: nat -> bool, n: nat) {
    forall k: nat | k < n :: ok(k)
  }

  /** The last of n attempts is the first to fail. */
  ghost predicate LastFails(ok: nat -> bool, n: nat) {
    n > 0 && !ok(n - 1) && AllHold(ok, n - 1)
  }

  /** So many checks and appends were made; all succeeded, or all but the last one. */
  ghost predicate Counted(w: World, t: Trace, checks: int, checkFailed: bool, appends: int, appendFailed: bool) {
    && t.checks == checks && (if checkFailed then LastFails(w.budget, t.checks) else AllHold(w.budget, t.checks))
    && t.appends == appends && (if appendFailed then LastFails(w.sink, t.appends) else AllHold(w.sink, t.appends))
  }

  /** Two checks for each prompt and for each answered call. */
  function ChecksDue(t: Trace): nat {
    2 * |t.prompts| + 2 * |t.answered|
  }

  function CallAndResult(call: ToolCall): seq<AuditEvent> {
    [CallEvent(Some(call.id), Some(call.name)), ResultEvent(call.id, call.name)]
  }

  /** The log of calls that were all run and answered. */
  function LogOf(answered: seq<ToolCall>): seq<AuditEvent> {
    if answered == [] then [] else LogOf(Front(answered)) + CallAndResult(Last(answered))
  }

  lemma LogOfAppend(answered: seq<ToolCall>, call: ToolCall)
    ensures LogOf(answered + [call]) == LogOf(answered) + CallAndResult(call)
  {
    assert Front(answered + [call]) == answered;
  }

  /** The log of calls that were all refused for coming too late. */
  function RefusalLog(p: Profile, calls: seq<ToolCall>): seq<AuditEvent> {
    if calls == [] then []
    else RefusalLog(p, Front(calls)) + [CallOf(p, Last(calls)), ErrorOf(p, Last(calls))]
  }

  lemma RefusalLogAppend(p: Profile, calls: seq<ToolCall>, call: ToolCall)
    ensures RefusalLog(p, calls + [call]) == RefusalLog(p, calls) + [CallOf(p, call), ErrorOf(p, call)]
  {
    assert Front(calls + [call]) == calls;
  }

  ghost predicate Ran(w: World, p: Profile, started: nat, call: ToolCall) {
    ExecuteToolCall(w, p, started, call).Ok?
  }

  /** The calls, started in this order as the first tools, all gave a result. */
  ghost predicate AllRan(w: World, p: Profile, calls: seq<ToolCall>) {
    forall i {:trigger Ran(w, p, i, calls[i])} | 0 <= i < |calls| :: Ran(w, p, i, calls[i])
  }

  /** Every call that was started is answered and logged. */
  ghost predicate Settled(t: Trace) {
    t.executed == t.answered && t.log == LogOf(t.answered)
  }

  /** Nothing has failed so far. */
  ghost predicate Clean(w: World, t: Trace) {
    Settled(t) && Counted(w, t, ChecksDue(t), false, 2 * |t.answered|, false)
  }

  /** Where the handling of one call can stop. */
  datatype CallStop =
    | BeforeCall                      // the budget is used up before the call
    | CallUnlogged                    // the sink refuses the call event
    | CallFailed(cause: ToolFailure)  // the call fails, and that is logged
    | ErrorUnlogged                   // the call fails, and the sink refuses the error event
    | AfterTool                       // the tool finishes, and the budget is used up
    | ResultUnlogged                  // the tool finishes, and the sink refuses the result event

  ghost predicate CallStoppedAt(w: World, p: Profile, t: Trace, call: ToolCall, stop: CallStop) {
    var before, checks, appends := LogOf(t.answered), ChecksDue(t), 2 * |t.answered|;
    var result := ExecuteToolCall(w, p, |t.answered|, call);
    match stop
    case BeforeCall => Settled(t) && Counted(w, t, checks + 1, true, appends, false)
    case CallUnlogged => Settled(t) && Counted(w, t, checks + 1, false, appends + 1, true)
    case CallFailed(cause) =>
      && result == Err(cause) && StartedIfAdmitted(w, p, t, call)
          && t.log == before + [CallOf(p, call), ErrorOf(p, call)]
      && Counted(w, t, checks + 1, false, appends + 2, false)
    case ErrorUnlogged =>
      && result.Err? && StartedIfAdmitted(w, p, t, call) && t.log == before + [CallOf(p, call)]
      && Counted(w, t, checks + 1, false, appends + 2, true)
    case AfterTool =>
      && result.Ok? && StartedIfAdmitted(w, p, t, call) && t.log == before + [CallOf(p, call)]
      && Counted(w, t, checks + 2, true, appends + 1, false)
    case ResultUnlogged =>
      && result.Ok? && StartedIfAdmitted(w, p, t, call) && t.log == before + [CallOf(p, call)]
      && Counted(w, t, checks + 2, false, appends + 2, true)
  }

  ghost predicate StartedIfAdmitted(w: World, p: Profile, t: Trace, call: ToolCall) {
    t.executed == if Admit(w, p, call).Ok? then t.answered + [call] else t.answered
  }

  /** Where the refusal of a reply's calls can stop. */
  datatype RefusalStop = AllRefused | Unlogged(i: nat, error: bool)

  ghost predicate RefusalStoppedAt(w: World, p: Profile, t: Trace, calls: seq<ToolCall>, stop: RefusalStop) {
    var before, appends := LogOf(t.answered), 2 * |t.answered|;
    && t.executed == t.answered
    && match stop
       case AllRefused =>
         && t.log == before + RefusalLog(p, calls)
         && Counted(w, t, ChecksDue(t), false, appends + 2 * |calls|, false)
       case Unlogged(i, error) =>
         && i < |calls|
         && t.log == before + RefusalLog(p, calls[..i]) + (if error then [CallOf(p, calls[i])] else [])
         && Counted(w, t, ChecksDue(t), false, appends + 2 * i + (if error then 2 else 1), true)
  }

  /** Where the loop can stop. */
  datatype Stop =
    | Finished                        // an answer without calls
    | BeforeModel                     // the budget is used up before the model is asked
    | ModelBroke
    | AfterModel                      // the budget is used up by the model's reply
    | NothingSaid                     // neither calls nor content
    | InCall(i: nat, at: CallStop)    // at call i of the last reply
    | InRefusal(late: RefusalStop)    // at a reply with calls after the last round

  ghost predicate StoppedAt(w: World, p: Profile, t: Trace, stop: Stop) {
    && AllRan(w, p, t.answered)
    && if stop.BeforeModel? then
      && |t.prompts| <= p.maxToolRounds && t.answered == AskedIn(w, t.prompts)
      && Settled(t) && Counted(w, t, ChecksDue(t) + 1, true, 2 * |t.answered|, false)
    else
      && t.prompts != []
      && StoppedAfter(w, p, t, AskedIn(w, Front(t.prompts)), LastReply(w, t.prompts), stop)
  }

  /** The loop stopped after this reply; the calls of all earlier replies are `asked`. */
  ghost predicate StoppedAfter(
    w: World, p: Profile, t: Trace, asked: seq<ToolCall>, reply: ModelReply, stop: Stop)
  {
    match stop
    case Finished =>
      && reply.Reply? && reply.toolCalls == [] && ContentOf(reply) != "" && t.answered == asked && Clean(w, t)
    case NothingSaid =>
      && reply.Reply? && reply.toolCalls == [] && ContentOf(reply) == "" && t.answered == asked && Clean(w, t)
    case ModelBroke =>
      && reply.ModelFailed? && t.answered == asked
      && Settled(t) && Counted(w, t, ChecksDue(t) - 1, false, 2 * |t.answered|, false)
    case AfterModel =>
      && reply.Reply? && t.answered == asked
      && Settled(t) && Counted(w, t, ChecksDue(t), true, 2 * |t.answered|, false)
    case InCall(i, at) =>
      && reply.Reply? && |t.prompts| <= p.maxToolRounds && i < |reply.toolCalls|
      && t.answered == asked + reply.toolCalls[..i] && CallStoppedAt(w, p, t, reply.toolCalls[i], at)
    case InRefusal(at) =>
      && reply.Reply? && |t.prompts| == p.maxToolRounds + 1 && reply.toolCalls != []
      && t.answered == asked && RefusalStoppedAt(w, p, t, reply.toolCalls, at)
    case BeforeModel => false
  }

  /** `message_content`, with "" for none. */
  function ContentOf(reply: ModelReply): string
    requires reply.Reply?
  {
    if reply.content.None? then "" else Text.Trim(reply.content.value)
  }

  function CallError(stop: CallStop): LoopError {
    match stop
    case BeforeCall => BudgetExceeded
    case AfterTool => BudgetExceeded
    case CallFailed(cause) => ToolFailed(cause)
    case _ => SinkFailed
  }

  /** What the caller gets for each way to stop. */
  function Outcome(w: World, t: Trace, stop: Stop): Result<Answer, LoopError>
    requires stop.Finished? ==> t.prompts != [] && LastReply(w, t.prompts).Reply?
  {
    match stop
    case Finished => Ok(Answer(ContentOf(LastReply(w, t.prompts)), |t.prompts| - 1))
    case BeforeModel => Err(BudgetExceeded)
    case ModelBroke => Err(ModelError)
    case AfterModel => Err(BudgetExceeded)
    case NothingSaid => Err(NoContent)
    case InCall(_, at) => Err(CallError(at))
    case InRefusal(at) => Err(if at.AllRefused? then TooManyRounds else SinkFailed)
  }

  // ---------------------------------------------------------------- the loop

  lemma OneMoreHolds(ok: nat -> bool, n: nat)
    requires AllHold(ok, n)
    ensures if ok(n) then AllHold(ok, n + 1) else LastFails(ok, n + 1)
  {
  }

  /** A failed call is audited. t0 is the trace with the call event logged. */
  method AuditFailure(w: World, p: Profile, t0: Trace, call: ToolCall, cause: ToolFailure)
      returns (t: Trace, stop: CallStop)
    requires ExecuteToolCall(w, p, |t0.answered|, call) == Err(cause)
    requires StartedIfAdmitted(w, p, t0, call) && t0.log == LogOf(t0.answered) + [CallOf(p, call)]
    requires Counted(w, t0, ChecksDue(t0) + 1, false, 2 * |t0.answered| + 1, false)
    ensures t.prompts == t0.prompts && t.answered == t0.answered && CallStoppedAt(w, p, t, call, stop)
  {
    t := t0.(appends := t0.appends + 1);
    OneMoreHolds(w.sink, t0.appends);
    if !w.sink(t0.appends) { return t, ErrorUnlogged; }
    t := t.(log := t.log + [ErrorOf(p, call)]);
    stop := CallFailed(cause);
  }

  /** What a tool returned is audited: a failure as an error, a result if the budget still allows it.
      t is the trace with the call event logged. */
  method AuditOutcome(w: World, p: Profile, t0: Trace, call: ToolCall, result: Result<ToolResult, ToolFailure>)
    returns (t: Trace, stop: Option<CallStop>)
    requires result == ExecuteToolCall(w, p, |t0.answered|, call)
    requires StartedIfAdmitted(w, p, t0, call) && t0.log == LogOf(t0.answered) + [CallOf(p, call)]
    requires Counted(w, t0, ChecksDue(t0) + 1, false, 2 * |t0.answered| + 1, false)
    ensures t.prompts == t0.prompts
    ensures stop.None? ==> result.Ok? && t.answered == t0.answered + [call] && Clean(w, t)
    ensures stop.Some? ==> t.answered == t0.answered && CallStoppedAt(w, p, t, call, stop.value)
  {
    t := t0;
    if result.Err? {
      var failed;
      t, failed := AuditFailure(w, p, t, call, result.error);
      return t, Some(failed);
    }
    ExecutedCallIsIdentified(w, p, |t0.answered|, call);
    t := t.(checks := t.checks + 1);
    OneMoreHolds(w.budget, t0.checks);
    if !w.budget(t0.checks) { return t, Some(AfterTool); }
    t := t.(appends := t.appends + 1);
    OneMoreHolds(w.sink, t0.appends);
    if !w.sink(t0.appends) { return t, Some(ResultUnlogged); }
    LogOfAppend(t0.answered, call);
    t := t.(log := t.log + [ResultEvent(call.id, call.name)], answered := t.answered + [call]);
    return t, None;
  }

  /** One call of a round: audited, run, and audited again. */
  method RunCall(w: World, p: Profile, t0: Trace, call: ToolCall)
    returns (t: Trace, stop: Option<CallStop>, answer: Option<Message>)
    requires Clean(w, t0)
    ensures t.prompts == t0.prompts
    ensures stop.None? ==> t.answered == t0.answered + [call] && Clean(w, t)
    ensures stop.None? ==> answer.Some? && Answers(w, p, |t0.answered|, call, answer.value)
    ensures stop.Some? ==> t.answered == t0.answered && CallStoppedAt(w, p, t, call, stop.value)
  {
    t, answer := t0.(checks := t0.checks + 1), None;
    OneMoreHolds(w.budget, t0.checks);
    if !w.budget(t0.checks) { return t, Some(BeforeCall), None; }
    t := t.(appends := t.appends + 1);
    OneMoreHolds(w.sink, t0.appends);
    if !w.sink(t0.appends) { return t, Some(CallUnlogged), None; }
    t := t.(log := t.log + [CallOf(p, call)]);
    var result, started := RunTool(w, p, |t.executed|, call);
    if started { t := t.(executed := t.executed + [call]); }
    t, stop := AuditOutcome(w, p, t, call, result);
    if result.Ok? { answer := Some(ResultMessage(call, result.value)); }
  }

  lemma TakeOneMore<T>(before: seq<T>, s: seq<T>, i: nat)
    requires i < |s|
    ensures before + s[..i] + [s[i]] == before + s[..i + 1]
    ensures i + 1 == |s| ==> before + s[..i + 1] == before + s
  {
    assert s[..i] + [s[i]] == s[..i + 1];
    assert s[..|s|] == s;
  }

  lemma TurnRan(w: World, p: Profile, before: seq<ToolCall>, turn: seq<Message>, calls: seq<ToolCall>, n: nat)
    requires AllRan(w, p, before) && IsTurnUpTo(w, p, |before|, turn, calls, n)
    ensures AllRan(w, p, before + calls[..n])
  {
    var ran := before + calls[..n];
    forall k | 0 <= k < |ran| ensures Ran(w, p, k, ran[k]) {
      if k < |before| {
        assert Ran(w, p, k, before[k]);
      } else {
        var i := k - |before|;
        assert Answers(w, p, |before| + i, calls[i], turn[i + 1]) && ran[k] == calls[i];
      }
    }
  }

  /** One round: the assistant message, then the answer to each call. turn is what is added to the messages. */
  method RunCalls(w: World, p: Profile, t0: Trace, calls: seq<ToolCall>)
    returns (t: Trace, stop: Option<(nat, CallStop)>, turn: seq<Message>)
    requires Clean(w, t0) && AllRan(w, p, t0.answered)
    ensures t.prompts == t0.prompts && AllRan(w, p, t.answered)
    ensures stop.None? ==> t.answered == t0.answered + calls && Clean(w, t)
    ensures stop.None? ==> IsTurn(w, p, |t0.answered|, turn, calls)
    ensures stop.Some? ==>
              var (i, at) := stop.value;
              i < |calls| && t.answered == t0.answered + calls[..i] && CallStoppedAt(w, p, t, calls[i], at)
  {
    t, turn, stop := t0, [AssistantToolCalls(calls)], None;
    var i := 0;
    while i < |calls|
      invariant 0 <= i <= |calls| && t.prompts == t0.prompts && Clean(w, t) && |t.answered| == |t0.answered| + i
      invariant t.answered == t0.answered + calls[..i] && (i == |calls| ==> t.answered == t0.answered + calls)
      invariant IsTurnUpTo(w, p, |t0.answered|, turn, calls, i)
    {
      var at, answer;
      ghost var base := |t.answered|;
      t, at, answer := RunCall(w, p, t, calls[i]);
      if at.Some? {
        TurnRan(w, p, t0.answered, turn, calls, i);
        return t, Some((i, at.value)), turn;
      }
      assert Answers(w, p, base, calls[i], answer.value) && base == |t0.answered| + i;
      TurnGrows(w, p, |t0.answered|, turn, calls, i, answer.value);
      TakeOneMore(t0.answered, calls, i);
      turn := turn + [answer.value];
      i := i + 1;
    }
    TurnRan(w, p, t0.answered, turn, calls, i);
    stop := None;
  }

  /** One call that comes too late: its call event and its error event. */
  method RefuseCall(w: World, p: Profile, t0: Trace, call: ToolCall) returns (t: Trace, lost: Option<bool>)
    requires AllHold(w.sink, t0.appends)
    ensures t == t0.(log := t.log, appends := t.appends)
    ensures lost.None? ==> t.log == t0.log + [CallOf(p, call), ErrorOf(p, call)]
    ensures lost == Some(true) ==> t.log == t0.log + [CallOf(p, call)]
    ensures lost == Some(false) ==> t.log == t0.log
    ensures t.appends == t0.appends + if lost == Some(false) then 1 else 2
    ensures if lost.None? then AllHold(w.sink, t.appends) else LastFails(w.sink, t.appends)
  {
    OneMoreHolds(w.sink, t0.appends);
    t := t0.(appends := t0.appends + 1);
    if !w.sink(t0.appends) { return t, Some(false); }
    t := t.(log := t.log + [CallOf(p, call)]);
    OneMoreHolds(w.sink, t.appends);
    t := t.(appends := t.appends + 1);
    if !w.sink(t.appends - 1) { return t, Some(true); }
    t := t.(log := t.log + [ErrorOf(p, call)]);
    return t, None;
  }

  /** The log of refusals, one call further. */
  lemma OneMoreRefused(p: Profile, before: seq<AuditEvent>, calls: seq<ToolCall>, i: nat)
    requires i < |calls|
    ensures before + RefusalLog(p, calls[..i]) + [CallOf(p, calls[i]), ErrorOf(p, calls[i])] ==
              before + RefusalLog(p, calls[..i + 1])
  {
    RefusalLogAppend(p, calls[..i], calls[i]);
    assert calls[..i] + [calls[i]] == calls[..i + 1];
  }

  /** The last round is over: every call is audited as refused. */
  method RefuseCalls(w: World, p: Profile, t0: Trace, calls: seq<ToolCall>) returns (t: Trace, stop: RefusalStop)
    requires Clean(w, t0)
    ensures t.prompts == t0.prompts && t.answered == t0.answered
    ensures RefusalStoppedAt(w, p, t, calls, stop)
  {
    t := t0;
    var i := 0;
    while i < |calls|
      invariant 0 <= i <= |calls| && t == t0.(log := t.log, appends := t.appends)
      invariant t.log == t0.log + RefusalLog(p, calls[..i])
      invariant t.appends == t0.appends + 2 * i && AllHold(w.sink, t.appends)
    {
      var lost;
      t, lost := RefuseCall(w, p, t, calls[i]);
      if lost.Some? { return t, Unlogged(i, lost.value); }
      OneMoreRefused(p, t0.log, calls, i);
      i := i + 1;
    }
    assert calls[..i] == calls;
    stop := AllRefused;
  }

  /** The first half of a round: the budget, the model, the budget again. */
  method AskModel(w: World, p: Profile, t0: Trace, messages: seq<Message>)
    returns (t: Trace, reply: ModelReply, stop: Option<Stop>)
    requires |t0.prompts| <= p.maxToolRounds && Clean(w, t0)
    ensures t.answered == t0.answered && (stop.Some? ==> !stop.value.Finished?)
    ensures if stop == Some(BeforeModel) then
              t.prompts == t0.prompts && Settled(t) && Counted(w, t, ChecksDue(t) + 1, true, 2 * |t.answered|, false)
            else
              && t.prompts == t0.prompts + [messages] && reply == w.model(|t0.prompts|, messages)
              && if stop.None? then reply.Reply? && Clean(w, t)
                  else StoppedAfter(w, p, t, t.answered, reply, stop.value)
  {
    reply := ModelFailed;
    OneMoreHolds(w.budget, t0.checks);
    t := t0.(checks := t0.checks + 1);
    if !w.budget(t0.checks) { return t, reply, Some(BeforeModel); }
    t := t.(prompts := t.prompts + [messages]);
    reply := w.model(|t0.prompts|, messages);
    if reply.ModelFailed? { return t, reply, Some(ModelBroke); }
    OneMoreHolds(w.budget, t.checks);
    t := t.(checks := t.checks + 1);
    if !w.budget(t.checks - 1) { return t, reply, Some(AfterModel); }
    stop := None;
  }

  /** The second half: an answer ends the loop; calls are run, or refused when the rounds are used up. */
  method TakeReply(w: World, p: Profile, t0: Trace, reply: ModelReply)
    returns (t: Trace, turn: seq<Message>, stop: Option<Stop>)
    requires 0 < |t0.prompts| <= p.maxToolRounds + 1 && reply == LastReply(w, t0.prompts) && reply.Reply?
    requires t0.answered == AskedIn(w, Front(t0.prompts)) && Clean(w, t0) && AllRan(w, p, t0.answered)
    ensures t.prompts == t0.prompts && AllRan(w, p, t.answered)
    ensures stop.None? ==> |t.prompts| <= p.maxToolRounds && t.answered == AskedIn(w, t.prompts) && Clean(w, t)
    ensures stop.None? ==> CallsOf(reply) != [] && IsTurn(w, p, |t0.answered|, turn, CallsOf(reply))
    ensures stop.Some? ==> StoppedAt(w, p, t, stop.value)
  {
    t, turn := t0, [];
    if reply.toolCalls == [] { return t, turn, Some(if ContentOf(reply) == "" then NothingSaid else Finished); }
    if |t.prompts| - 1 >= p.maxToolRounds {
      var late;
      t, late := RefuseCalls(w, p, t, reply.toolCalls);
      return t, turn, Some(InRefusal(late));
    }
    var at;
    t, at, turn := RunCalls(w, p, t, reply.toolCalls);
    stop := if at.Some? then Some(InCall(at.value.0, at.value.1)) else None;
  }

  lemma PromptAdded(w: World, prompts: seq<seq<Message>>, next: seq<Message>)
    ensures var longer := prompts + [next];
            Front(longer) == prompts && Last(longer) == next && LastReply(w, longer) == w.model(|prompts|, next)
  {
  }

  lemma TurnMakesNextPrompt(
    w: World, p: Profile, start: seq<Message>, prompts: seq<seq<Message>>, turn: seq<Message>)
    requires prompts != [] && CallsOf(LastReply(w, prompts)) != []
    requires IsTurn(w, p, |AskedIn(w, Front(prompts))|, turn, CallsOf(LastReply(w, prompts)))
    ensures IsNextPrompt(w, p, start, prompts, Last(prompts) + turn)
  {
    assert (Last(prompts) + turn)[|Last(prompts)|..] == turn;
  }

  /** `profile_chat_completion`. What the run leaves and where it stopped are returned with its outcome. */
  method ChatCompletion(w: World, p: Profile, start: seq<Message>)
    returns (r: Result<Answer, LoopError>, t: Trace, stop: Stop)
    ensures |t.prompts| <= p.maxToolRounds + 1 && IsConversation(w, p, start, t.prompts)
    ensures StoppedAt(w, p, t, stop)
    ensures r == Outcome(w, t, stop) && r != Err(NoFinalAnswer)
  {
    t := EMPTY;
    var messages := start;
    var round := 0;
    while round <= p.maxToolRounds
      invariant 0 <= round <= p.maxToolRounds && |t.prompts| == round
      invariant IsConversation(w, p, start, t.prompts) && IsNextPrompt(w, p, start, t.prompts, messages)
      invariant t.answered == AskedIn(w, t.prompts) && Clean(w, t) && AllRan(w, p, t.answered)
      decreases p.maxToolRounds - round
    {
      var reply, ended, turn;
      PromptAdded(w, t.prompts, messages);
      ConversationGrows(w, p, start, t.prompts, messages);
      t, reply, ended := AskModel(w, p, t, messages);
      if ended.Some? { return Outcome(w, t, ended.value), t, ended.value; }
      t, turn, ended := TakeReply(w, p, t, reply);
      if ended.Some? { return Outcome(w, t, ended.value), t, ended.value; }
      TurnMakesNextPrompt(w, p, start, t.prompts, turn);
      messages := messages + turn;
      round := round + 1;
    }
    r, stop := Err(NoFinalAnswer), NothingSaid;
  }
}
