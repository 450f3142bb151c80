/** What the places a tool loop can stop at mean for its audit log, its conversation and its tools. */
module ToolLoopTheorems {
  import opened Wrappers
  import opened Json
  import opened ToolPolicy
  import opened ToolLoop
  import Schema
  import SchemaTheorems
  import Text

  // ---------------------------------------------------------------- the shape of an audit log

  /** Where a log stands when read from the left. Closed: every call has its result. Open: the last
      call is still unanswered. Failing: only call/error pairs follow. */
  datatype AuditState =
    | Closed
    | Open(id: Option<string>, tool: Option<string>)
    | Failing
    | FailingOpen(id: Option<string>, tool: Option<string>)
    | Broken

  function AuditStep(s: AuditState, e: AuditEvent): AuditState {
    match (s, e)
    case (Closed, CallEvent(id, tool)) => Open(id, tool)
    case (Open(Some(id), Some(tool)), ResultEvent(id', tool')) => if id == id' && tool == tool' then Closed else Broken
    case (Open(id, tool), ErrorEvent(id', tool')) => if id == id' && tool == tool' then Failing else Broken
    case (Failing, CallEvent(id, tool)) => FailingOpen(id, tool)
    case (FailingOpen(id, tool), ErrorEvent(id', tool')) => if id == id' && tool == tool' then Failing else Broken
    case _ => Broken
  }

  function AuditStateOf(log: seq<AuditEvent>): AuditState {
    if log == [] then Closed else AuditStep(AuditStateOf(Front(log)), Last(log))
  }

  lemma AuditAppend(log: seq<AuditEvent>, e: AuditEvent)
    ensures AuditStateOf(log + [e]) == AuditStep(AuditStateOf(log), e)
  {
    assert Front(log + [e]) == log;
  }

  lemma AuditAppendTwo(log: seq<AuditEvent>, e: AuditEvent, f: AuditEvent)
    ensures AuditStateOf(log + [e, f]) == AuditStep(AuditStep(AuditStateOf(log), e), f)
  {
    AuditAppend(log, e);
    AuditAppend(log + [e], f);
    assert log + [e, f] == log + [e] + [f];
  }

  /** Events 2i and 2i + 1 are an identified call and its own result. */
  predicate AnsweredAt(log: seq<AuditEvent>, i: nat) {
    && 2 * i + 1 < |log| && log[2 * i].CallEvent? && log[2 * i].id.Some? && log[2 * i].tool.Some?
    && log[2 * i + 1] == ResultEvent(log[2 * i].id.value, log[2 * i].tool.value)
  }

  /** Events 2i and 2i + 1 are a call and its own error. */
  predicate FailedAt(log: seq<AuditEvent>, i: nat) {
    2 * i + 1 < |log| && log[2 * i].CallEvent? && log[2 * i + 1] == ErrorEvent(log[2 * i].id, log[2 * i].tool)
  }

  predicate HasPairs(log: seq<AuditEvent>, answered: nat, pairs: nat) {
    && answered <= pairs && 2 * pairs <= |log|
    && (forall i | 0 <= i < answered :: AnsweredAt(log, i))
    && (forall i | answered <= i < pairs :: FailedAt(log, i))
  }

  lemma PairsStay(log: seq<AuditEvent>, answered: nat, pairs: nat, e: AuditEvent)
    requires HasPairs(log, answered, pairs)
    ensures HasPairs(log + [e], answered, pairs)
  {
    var longer := log + [e];
    forall i | 0 <= i < answered ensures AnsweredAt(longer, i) {
      assert AnsweredAt(log, i) && longer[2 * i] == log[2 * i] && longer[2 * i + 1] == log[2 * i + 1];
    }
    forall i | answered <= i < pairs ensures FailedAt(longer, i) {
      assert FailedAt(log, i) && longer[2 * i] == log[2 * i] && longer[2 * i + 1] == log[2 * i + 1];
    }
  }

  /** The logs the states stand for: answered calls, then nothing, or one open call, or failed calls,
      the last of them perhaps still open. */
  lemma {:induction false} AuditLogForm(log: seq<AuditEvent>) returns (answered: nat, pairs: nat)
    requires !AuditStateOf(log).Broken?
    ensures HasPairs(log, answered, pairs)
    ensures AuditStateOf(log).Closed? ==> |log| == 2 * pairs && pairs == answered
    ensures AuditStateOf(log).Open? ==> |log| == 2 * pairs + 1 && pairs == answered
    ensures AuditStateOf(log).Failing? ==> |log| == 2 * pairs && pairs > answered
    ensures AuditStateOf(log).FailingOpen? ==> |log| == 2 * pairs + 1 && pairs > answered
    ensures AuditStateOf(log).Open? || AuditStateOf(log).FailingOpen? ==>
              log[|log| - 1] == CallEvent(AuditStateOf(log).id, AuditStateOf(log).tool)
  {
    answered, pairs := 0, 0;
    if log != [] {
      var front, e := Front(log), Last(log);
      assert log == front + [e];
      answered, pairs := AuditLogForm(front);
      PairsStay(front, answered, pairs, e);
      if e.ResultEvent? {
        assert AnsweredAt(log, pairs);
        answered, pairs := answered + 1, pairs + 1;
      } else if e.ErrorEvent? {
        assert FailedAt(log, pairs);
        pairs := pairs + 1;
      }
    }
  }

  lemma {:induction false} AnsweredLogIsClosed(answered: seq<ToolCall>)
    ensures AuditStateOf(LogOf(answered)).Closed? && |LogOf(answered)| == 2 * |answered|
  {
    if answered != [] {
      var call := Last(answered);
      AnsweredLogIsClosed(Front(answered));
      AuditAppendTwo(LogOf(Front(answered)), CallEvent(Some(call.id), Some(call.name)),
          ResultEvent(call.id, call.name));
    }
  }

  lemma {:induction false} RefusalsFail(before: seq<AuditEvent>, p: Profile, calls: seq<ToolCall>)
    requires AuditStateOf(before).Closed?
    ensures var s := AuditStateOf(before + RefusalLog(p, calls)); if calls == [] then s.Closed? else s.Failing?
  {
    if calls == [] {
      assert before + RefusalLog(p, calls) == before;
    } else {
      var call, earlier := Last(calls), RefusalLog(p, Front(calls));
      RefusalsFail(before, p, Front(calls));
      AuditAppendTwo(before + earlier, CallOf(p, call), ErrorOf(p, call));
      assert before + RefusalLog(p, calls) == before + earlier + [CallOf(p, call), ErrorOf(p, call)];
    }
  }

  /** How the log stands at each place the loop can stop at. */
  predicate LogFits(s: AuditState, stop: Stop) {
    match stop
    case InCall(_, at) =>
      if at.BeforeCall? || at.CallUnlogged? then s.Closed? else if at.CallFailed? then s.Failing? else s.Open?
    case InRefusal(AllRefused) => s.Failing?
    case InRefusal(Unlogged(i, error)) =>
      if error then (if i == 0 then s.Open? else s.FailingOpen?) else (if i == 0 then s.Closed? else s.Failing?)
    case _ => s.Closed?
  }

  lemma CallLogFits(w: World, p: Profile, t: Trace, call: ToolCall, i: nat, at: CallStop)
    requires CallStoppedAt(w, p, t, call, at)
    ensures LogFits(AuditStateOf(t.log), InCall(i, at))
  {
    var before := LogOf(t.answered);
    AnsweredLogIsClosed(t.answered);
    AuditAppend(before, CallOf(p, call));
    AuditAppendTwo(before, CallOf(p, call), ErrorOf(p, call));
  }

  lemma RefusalLogFits(w: World, p: Profile, t: Trace, calls: seq<ToolCall>, late: RefusalStop)
    requires RefusalStoppedAt(w, p, t, calls, late) && calls != []
    ensures LogFits(AuditStateOf(t.log), InRefusal(late))
  {
    var before := LogOf(t.answered);
    AnsweredLogIsClosed(t.answered);
    match late {
      case AllRefused => RefusalsFail(before, p, calls);
      case Unlogged(i, error) =>
        RefusalsFail(before, p, calls[..i]);
        AuditAppend(before + RefusalLog(p, calls[..i]), CallOf(p, calls[i]));
        assert before + RefusalLog(p, calls[..i]) + [] == before + RefusalLog(p, calls[..i]);
    }
  }

  /** Wherever the loop stops, its log is well-formed and in the state that belongs there. */
  lemma StoppedLogFits(w: World, p: Profile, t: Trace, stop: Stop)
    requires StoppedAt(w, p, t, stop)
    ensures LogFits(AuditStateOf(t.log), stop)
  {
    match stop {
      case InCall(i, at) => CallLogFits(w, p, t, LastReply(w, t.prompts).toolCalls[i], i, at);
      case InRefusal(late) => RefusalLogFits(w, p, t, LastReply(w, t.prompts).toolCalls, late);
      case _ => AnsweredLogIsClosed(t.answered);
    }
  }

  // ---------------------------------------------------------------- calls without an answer

  /** The last event is a call: it has neither a result nor an error. */
  predicate EndsOpen(log: seq<AuditEvent>) {
    log != [] && Last(log).CallEvent?
  }

  /** The check that failed is the one after a finished tool. */
  predicate LostAfterTool(stop: Stop) {
    stop.InCall? && stop.at.AfterTool?
  }

  /** The append that failed is the one right after a call event. */
  predicate LostBySink(stop: Stop) {
    || (stop.InCall? && (stop.at.ErrorUnlogged? || stop.at.ResultUnlogged?))
    || (stop.InRefusal? && stop.late.Unlogged? && stop.late.error)
  }

  /** The automaton's open states are the logs that end with a call. */
  lemma OpenMeans(log: seq<AuditEvent>)
    requires !AuditStateOf(log).Broken?
    ensures EndsOpen(log) <==> AuditStateOf(log).Open? || AuditStateOf(log).FailingOpen?
  {
  }

  /** A call stays without a result and an error exactly when the budget is found used up right after
      its tool finished, or the sink fails right after its call event. */
  lemma EndsOpenIff(w: World, p: Profile, t: Trace, stop: Stop)
    requires StoppedAt(w, p, t, stop)
    ensures EndsOpen(t.log) <==> LostAfterTool(stop) || LostBySink(stop)
  {
    StoppedLogFits(w, p, t, stop);
    OpenMeans(t.log);
  }

  /** In terms of what the sink and the budget did: with a sink that works, a call stays open iff the
      run ends for its budget with a tool started that is not answered. */
  lemma ReliableSinkEndsOpenIff(w: World, p: Profile, t: Trace, stop: Stop)
    requires StoppedAt(w, p, t, stop) && AllHold(w.sink, t.appends)
    ensures EndsOpen(t.log) <==> stop.InCall? && LastFails(w.budget, t.checks) && |t.executed| == |t.answered| + 1
  {
    EndsOpenIff(w, p, t, stop);
    if stop.InCall? && stop.at.AfterTool? {
      assert Admit(w, p, LastReply(w, t.prompts).toolCalls[stop.i]).Ok?;
    }
  }

  /** With a budget that lasts and a sink that works no call stays open: the log is answered calls, and
      after them failed ones if the run failed for a tool or for too many rounds. */
  lemma ReliableRunsEndClosed(w: World, p: Profile, t: Trace, stop: Stop)
    requires StoppedAt(w, p, t, stop) && AllHold(w.budget, t.checks) && AllHold(w.sink, t.appends)
    ensures !EndsOpen(t.log)
    ensures AuditStateOf(t.log).Closed? || AuditStateOf(t.log).Failing?
    ensures AuditStateOf(t.log).Failing? <==>
              Outcome(w, t, stop) == Err(TooManyRounds)
              || (Outcome(w, t, stop).Err? && Outcome(w, t, stop).error.ToolFailed?)
  {
    StoppedLogFits(w, p, t, stop);
    EndsOpenIff(w, p, t, stop);
  }

  // ---------------------------------------------------------------- what the caller is told

  /** The run ends for its budget iff its last check failed, for its sink iff its last append failed, and
      otherwise for the tool, the model or the rounds. */
  lemma OutcomeMeans(w: World, p: Profile, t: Trace, stop: Stop)
    requires StoppedAt(w, p, t, stop)
    ensures var r := Outcome(w, t, stop);
            && (r == Err(BudgetExceeded) <==> LastFails(w.budget, t.checks))
            && (r == Err(SinkFailed) <==> LastFails(w.sink, t.appends))
            && (r == Err(ModelError) <==> stop.ModelBroke?)
            && (r == Err(NoContent) <==> stop.NothingSaid?)
            && (r == Err(TooManyRounds) <==> stop == InRefusal(AllRefused))
            && (forall cause :: r == Err(ToolFailed(cause)) <==> stop.InCall? && stop.at == CallFailed(cause))
            && r != Err(NoFinalAnswer)
  {
  }

  /** The run succeeds iff its last reply has no calls and some text; it then gives that text, trimmed, and the
      number of replies before it. */
  lemma AnswerMeans(w: World, p: Profile, t: Trace, stop: Stop)
    requires StoppedAt(w, p, t, stop)
    ensures var r := Outcome(w, t, stop);
            && (r.Ok? <==> stop.Finished?)
            && (r.Ok? ==>
                  && t.prompts != [] && r.value.toolRounds == |t.prompts| - 1
                  && exists text :: && LastReply(w, t.prompts) == Reply(Some(text), []) && !Text.IsBlank(text)
                                    && r.value.content == Text.Trim(text))
            && (stop.NothingSaid? ==>
                  && LastReply(w, t.prompts).toolCalls == []
                  && forall text :: LastReply(w, t.prompts).content == Some(text) ==> Text.IsBlank(text))
  {
    if !stop.BeforeModel? && LastReply(w, t.prompts).Reply? && LastReply(w, t.prompts).content.Some? {
      Text.BlankIffTrimmedAway(LastReply(w, t.prompts).content.value);
    }
  }

  // ---------------------------------------------------------------- what ran, and what was said

  /** On success the calls started, answered and logged are the calls of all replies but the last, in
      order. */
  lemma SuccessRanWhatWasAsked(w: World, p: Profile, t: Trace, stop: Stop)
    requires StoppedAt(w, p, t, stop) && Outcome(w, t, stop).Ok?
    ensures t.prompts != [] && t.executed == AskedIn(w, Front(t.prompts)) == AskedIn(w, t.prompts)
    ensures t.log == LogOf(t.executed)
  {
    assert AskedIn(w, t.prompts) == AskedIn(w, Front(t.prompts)) + [];
  }

  lemma RanWereAdmitted(w: World, p: Profile, calls: seq<ToolCall>)
    requires AllRan(w, p, calls)
    ensures forall call | call in calls :: Admit(w, p, call).Ok?
  {
    forall i | 0 <= i < |calls| ensures Admit(w, p, calls[i]).Ok? { assert Ran(w, p, i, calls[i]); }
  }

  lemma StartedPrefix<T>(asked: seq<T>, calls: seq<T>, i: nat)
    requires i < |calls|
    ensures asked + calls[..i] <= asked + calls && asked + calls[..i] + [calls[i]] <= asked + calls
  {
  }

  lemma StartedWereAsked(w: World, p: Profile, t: Trace, stop: Stop)
    requires StoppedAt(w, p, t, stop)
    ensures t.executed <= AskedIn(w, t.prompts)
  {
    if !stop.BeforeModel? {
      var asked, calls := AskedIn(w, Front(t.prompts)), CallsOf(LastReply(w, t.prompts));
      if stop.InCall? { StartedPrefix(asked, calls, stop.i); }
    }
  }

  lemma AtMostOneUnanswered(w: World, p: Profile, t: Trace, stop: Stop) returns (call: Option<ToolCall>)
    requires StoppedAt(w, p, t, stop)
    ensures t.executed == t.answered + if call.Some? then [call.value] else []
    ensures call.Some? ==> Admit(w, p, call.value).Ok?
  {
    call := None;
    if stop.InCall? && t.executed != t.answered {
      call := Some(LastReply(w, t.prompts).toolCalls[stop.i]);
    }
  }

  /** However the loop stops, the tools started are the first of the calls the model asked for, in
      order, and every one of them was admitted. */
  lemma OnlyAskedCallsRun(w: World, p: Profile, t: Trace, stop: Stop)
    requires StoppedAt(w, p, t, stop)
    ensures t.executed <= AskedIn(w, t.prompts)
    ensures forall call | call in t.executed :: Admit(w, p, call).Ok?
  {
    StartedWereAsked(w, p, t, stop);
    RanWereAdmitted(w, p, t.answered);
    var call := AtMostOneUnanswered(w, p, t, stop);
  }

  lemma {:induction false} ConversationStarts(w: World, p: Profile, start: seq<Message>, prompts: seq<seq<Message>>)
    requires IsConversation(w, p, start, prompts) && prompts != []
    ensures prompts[0] == start
  {
    if Front(prompts) != [] { ConversationStarts(w, p, start, Front(prompts)); }
  }

  /** Wherever in a conversation a prompt stands after another, it is that one with, added to it, a
      message with the calls of the reply, and one tool message for each call in order, with its id, its
      name and what its tool returned. */
  lemma {:induction false} ConversationMeans(
    w: World, p: Profile, start: seq<Message>, earlier: seq<seq<Message>>, prompt: seq<Message>, next: seq<Message>,
    rest: seq<seq<Message>>)
    requires IsConversation(w, p, start, earlier + [prompt] + [next] + rest)
    ensures var calls := CallsOf(w.model(|earlier|, prompt));
            calls != [] && Extends(w, p, |AskedIn(w, earlier)|, prompt, next, calls)
    decreases |rest|
  {
    var two := earlier + [prompt] + [next];
    if rest == [] {
      assert two + rest == two;
      PromptAdded(w, earlier + [prompt], next);
      NextPromptExtends(w, p, start, earlier, prompt, next);
    } else {
      assert Front(two + rest) == two + Front(rest);
      ConversationMeans(w, p, start, earlier, prompt, next, Front(rest));
    }
  }

  lemma NextPromptExtends(
    w: World, p: Profile, start: seq<Message>, earlier: seq<seq<Message>>, prompt: seq<Message>, next: seq<Message>)
    requires IsNextPrompt(w, p, start, earlier + [prompt], next)
    ensures var calls := CallsOf(w.model(|earlier|, prompt));
            calls != [] && Extends(w, p, |AskedIn(w, earlier)|, prompt, next, calls)
  {
    PromptAdded(w, earlier, prompt);
    TurnMeans(w, p, |AskedIn(w, earlier)|, prompt, next, CallsOf(w.model(|earlier|, prompt)));
  }

  ghost predicate Extends(
    w: World, p: Profile, started: nat, prompt: seq<Message>, next: seq<Message>, calls: seq<ToolCall>)
  {
    var base := |prompt|;
    && |next| == base + 1 + |calls| && prompt <= next && next[base] == AssistantToolCalls(calls)
    && forall i | 0 <= i < |calls| :: Reports(w, p, started + i, calls[i], next[base + 1 + i])
  }

  ghost predicate Reports(w: World, p: Profile, started: nat, call: ToolCall, m: Message) {
    var result := ExecuteToolCall(w, p, started, call);
    && m.ToolMessage? && m.callId == call.id && m.toolName == call.name
    && result.Ok? && m.outputRef == result.value.outputRef && Summarizes(m.summary, result.value.output)
  }

  /** The summary tells the output's kind and, of an object, array or string, how long it is. */
  ghost predicate Summarizes(summary: Summary, v: Json) {
    match summary
    case ObjectKeys(n) => exists fields :: v == Obj(fields) && |fields| == n
    case ArrayLength(n) => exists items :: v == Arr(items) && |items| == n
    case StringLength(n) => exists s :: v == Str(s) && |s| == n
    case NullValue => v == Null
    case BoolValue => v == Bool(true) || v == Bool(false)
    case NumberValue => exists n :: v == Num(n)
  }

  lemma SummaryMeans(v: Json)
    ensures forall summary :: SummaryOf(v) == summary <==> Summarizes(summary, v)
  {
  }

  lemma TurnMeans(
    w: World, p: Profile, started: nat, prompt: seq<Message>, next: seq<Message>, calls: seq<ToolCall>)
    requires prompt <= next && IsTurn(w, p, started, next[|prompt|..], calls)
    ensures Extends(w, p, started, prompt, next, calls)
  {
    var turn := next[|prompt|..];
    forall i | 0 <= i < |calls| ensures Reports(w, p, started + i, calls[i], next[|prompt| + 1 + i]) {
      assert Answers(w, p, started + i, calls[i], turn[i + 1]) && turn[i + 1] == next[|prompt| + 1 + i];
      SummaryMeans(ExecuteToolCall(w, p, started + i, calls[i]).value.output);
    }
  }

  // ---------------------------------------------------------------- what a tool call gives

  /** Some keyword of the schema is violated somewhere in the value, for this reason. */
  ghost predicate Breaks(schema: Json, value: Json, reason: Schema.Reason) {
    exists path :: SchemaTheorems.ViolatedAt(SchemaTheorems.Pair(schema, value), path, reason)
  }

  ghost predicate Fits(schema: Json, value: Json) {
    forall reason :: !Breaks(schema, value, reason)
  }

  lemma ValidateMeans(schema: Json, value: Json)
    ensures Schema.Validate(schema, value).Ok? <==> Fits(schema, value)
    ensures Schema.Validate(schema, value).Err? ==> Breaks(schema, value, Schema.Validate(schema, value).error)
  {
    SchemaTheorems.AcceptsIffNoViolation(schema, value);
    if Schema.Validate(schema, value).Err? {
      var path := SchemaTheorems.RejectionIsJustified(schema, value);
      assert Breaks(schema, value, Schema.Validate(schema, value).error);
    }
  }

  /** A call of a tool that may be used, with arguments that parse and fit its input schema. */
  ghost predicate MayRun(w: World, p: Profile, call: ToolCall) {
    && p.contract.Some? && call.name in p.requested && MayUse(p.contract.value, call.name)
    && var arguments := ArgumentsOf(w, call);
       arguments.Some? && Fits(DeclaredSpec(p.contract.value.specs, call.name).inputSchema, arguments.value)
  }

  /** No arguments are an empty object; others must parse. */
  ghost function ArgumentsOf(w: World, call: ToolCall): Option<Json> {
    if forall i | 0 <= i < |call.arguments| :: Text.IsWhitespace(call.arguments[i]) then Some(Obj([]))
    else w.parseJson(call.arguments)
  }

  /** A call is admitted iff it may run, with the first spec declared for its tool and its arguments; each
      refusal has its own case. */
  lemma AdmissionMeans(w: World, p: Profile, call: ToolCall)
    ensures var r := Admit(w, p, call);
            && (r.Ok? <==> MayRun(w, p, call))
            && (r.Ok? ==>
                  && r.value.spec == DeclaredSpec(p.contract.value.specs, call.name)
                  && ArgumentsOf(w, call) == Some(r.value.arguments))
            && (r == Err(NoContract) <==> p.contract.None?)
            && (r.Err? && r.error.Refused? <==>
                  p.contract.Some? && !(call.name in p.requested && MayUse(p.contract.value, call.name)))
            && (r.Err? && r.error.ArgumentsInvalid? ==>
                  && ArgumentsOf(w, call).Some?
                  && var schema := DeclaredSpec(p.contract.value.specs, call.name).inputSchema;
                     Breaks(schema, ArgumentsOf(w, call).value, r.error.reason))
            && (r == Err(ArgumentsMalformed) ==> ArgumentsOf(w, call).None?)
            && (r.Err? ==>
                  || r.error.NoContract? || r.error.Refused? || r.error.ArgumentsMalformed?
                  || r.error.ArgumentsInvalid?)
  {
    if p.contract.Some? {
      CallableIff(p.contract.value, call.name, p.requested);
      var arguments := ArgumentsOf(w, call);
      if arguments.Some? {
        ValidateMeans(DeclaredSpec(p.contract.value.specs, call.name).inputSchema, arguments.value);
      }
    }
  }

  /** The ref a result is delivered with: its own, or one made of the call's id. */
  ghost function RefOf(call: ToolCall, result: ToolResult): string {
    if result.outputRef.Some? then result.outputRef.value else "runtime://tool-results/" + call.id
  }

  /** The executor's result may be delivered: it has a ref if the spec asks for one, and fits its output
      schema. */
  ghost predicate Deliverable(spec: ToolSpec, ran: Result<ToolResult, ()>) {
    ran.Ok? && (spec.outputRefRequired ==> ran.value.outputRef.Some?) && Fits(spec.outputSchema, ran.value.output)
  }

  lemma DeliveryMeans(call: ToolCall, spec: ToolSpec, ran: Result<ToolResult, ()>)
    ensures var r := Deliver(call, spec, ran);
            && (r.Ok? <==> Deliverable(spec, ran))
            && (r.Ok? ==> r.value == ToolResult(Some(RefOf(call, ran.value)), ran.value.output))
            && (r == Err(ExecutorFailed) <==> ran.Err?)
            && (r == Err(OutputRefMissing) <==> ran.Ok? && spec.outputRefRequired && ran.value.outputRef.None?)
            && (r.Err? && r != Err(ExecutorFailed) && r != Err(OutputRefMissing) ==>
                  r.error.OutputInvalid? && Breaks(spec.outputSchema, ran.value.output, r.error.reason))
  {
    if ran.Ok? { ValidateMeans(spec.outputSchema, ran.value.output); }
  }

  /** A tool call succeeds iff it may run, its executor succeeds, a required ref is there, and the output
      violates its schema nowhere. The result is the executor's output, with its ref or one of the call's
      id; each failure is named. */
  lemma ToolCallMeans(w: World, p: Profile, started: nat, call: ToolCall)
    ensures var r := ExecuteToolCall(w, p, started, call);
            if !MayRun(w, p, call) then r.Err? && Admit(w, p, call) == Err(r.error)
            else
              var spec := DeclaredSpec(p.contract.value.specs, call.name);
              var ran := w.executor(started, call, ArgumentsOf(w, call).value, spec);
              && (r.Ok? <==> Deliverable(spec, ran))
              && (r.Ok? ==> r.value == ToolResult(Some(RefOf(call, ran.value)), ran.value.output))
              && (r == Err(ExecutorFailed) <==> ran.Err?)
              && (r == Err(OutputRefMissing) <==> ran.Ok? && spec.outputRefRequired && ran.value.outputRef.None?)
              && (r.Err? && r != Err(ExecutorFailed) && r != Err(OutputRefMissing) ==>
                    r.error.OutputInvalid? && Breaks(spec.outputSchema, ran.value.output, r.error.reason))
  {
    AdmissionMeans(w, p, call);
    if MayRun(w, p, call) {
      var spec := DeclaredSpec(p.contract.value.specs, call.name);
      DeliveryMeans(call, spec, w.executor(started, call, ArgumentsOf(w, call).value, spec));
    }
  }

  /** The audit names a call iff the policy would let it be made; otherwise id and name are both withheld. */
  lemma IdentityIsShownIff(p: Profile, call: ToolCall)
    ensures CallOf(p, call) ==
              if p.contract.Some? && call.name in p.requested && MayUse(p.contract.value, call.name)
              then CallEvent(Some(call.id), Some(call.name)) else CallEvent(None, None)
    ensures ErrorOf(p, call) == ErrorEvent(CallOf(p, call).id, CallOf(p, call).tool)
  {
    if p.contract.Some? {
      CallableIff(p.contract.value, call.name, p.requested);
      EffectiveIffCallable(p.contract.value, p.requested, call.name);
    }
  }

  // ---------------------------------------------------------------- a run whose call stays open

  const WITNESS_CALL := ToolCall("call-1", "lookup", "")
  const WITNESS_PROFILE := Profile(Some(Policy(["lookup"], [], [])), ["lookup"], 1)

  /** The model always makes one call, its tool succeeds, the sink works, and the budget is used up at
      the fourth check. */
  function WitnessWorld(): World {
    World((k, messages) => Reply(None, [WITNESS_CALL]),
          (k, call, arguments, spec) => Ok(ToolResult(Some("ref"), Obj([]))),
          text => None, k => k < 3, k => true)
  }

  lemma EmptyObjectFits()
    ensures Schema.Validate(ANY_OBJECT, Obj([])).Ok?
  {
    assert GetStr(ANY_OBJECT, "type") == Some("object");
    assert ANY_OBJECT.fields[1..] == [];
    assert Get(ANY_OBJECT, "enum").None? && Get(ANY_OBJECT, "required").None? && Get(ANY_OBJECT, "properties").None?;
    assert Get(ANY_OBJECT, "items").None? && Get(ANY_OBJECT, "minItems").None?;
  }

  lemma WitnessCallSucceeds(started: nat)
    ensures ExecuteToolCall(WitnessWorld(), WITNESS_PROFILE, started, WITNESS_CALL).Ok?
  {
    EmptyObjectFits();
  }

  lemma {:induction false} WitnessAsksOncePerPrompt(prompts: seq<seq<Message>>)
    ensures |AskedIn(WitnessWorld(), prompts)| == |prompts|
  {
    if prompts != [] { WitnessAsksOncePerPrompt(Front(prompts)); }
  }

  lemma WitnessLimits(n: nat)
    ensures AllHold(WitnessWorld().budget, n) ==> n <= 3
    ensures LastFails(WitnessWorld().budget, n) ==> n == 4
    ensures !LastFails(WitnessWorld().sink, n)
  {
    assert !WitnessWorld().budget(3);
  }

  lemma WitnessStopsInFirstCall(t: Trace, stop: Stop)
    requires StoppedAt(WitnessWorld(), WITNESS_PROFILE, t, stop)
    ensures stop.InCall? && |t.answered| == |t.prompts| - 1 && stop.i == 0
  {
    var w := WitnessWorld();
    WitnessLimits(t.checks);
    WitnessLimits(t.appends);
    WitnessAsksOncePerPrompt(t.prompts);
    if t.prompts != [] { WitnessAsksOncePerPrompt(Front(t.prompts)); }
  }

  /** Wherever the loop may stop in that world, it is after the tool of the first call. */
  lemma WitnessStopsAfterTool(t: Trace, stop: Stop)
    requires StoppedAt(WitnessWorld(), WITNESS_PROFILE, t, stop)
    ensures stop == InCall(0, AfterTool) && t.log == [CallEvent(Some("call-1"), Some("lookup"))]
    ensures t.executed == [WITNESS_CALL] && t.answered == []
  {
    WitnessStopsInFirstCall(t, stop);
    WitnessCallSucceeds(|t.answered|);
    WitnessLimits(t.checks);
    WitnessLimits(t.appends);
    ExecutedCallIsIdentified(WitnessWorld(), WITNESS_PROFILE, |t.answered|, WITNESS_CALL);
    assert stop.at.AfterTool? && |t.prompts| == 1;
    assert LogOf(t.answered) == [];
  }

  /** The loop itself, run in that world, leaves a call that has neither a result nor an error. */
  method RunWitness(start: seq<Message>) returns (r: Result<Answer, LoopError>, t: Trace)
    ensures r == Err(BudgetExceeded)
    ensures t.log == [CallEvent(Some("call-1"), Some("lookup"))] && t.executed == [WITNESS_CALL]
  {
    var stop;
    r, t, stop := ChatCompletion(WitnessWorld(), WITNESS_PROFILE, start);
    WitnessStopsAfterTool(t, stop);
  }
}
