/** The step-plan executor: steps in plan order, dependencies on earlier outputs, a failure policy
    per step, and tool narrowing by contract and step. */
module StepPlan {
  import opened Wrappers
  import opened Json
  import opened ToolPolicy
  import Schema
  import Text

  datatype Status = Planned | Executing | Completed | Failed | Skipped

  datatype FailurePolicy = Stop | Continue

  datatype Step = Step(
    stepId: string, profileId: string, contractVersion: string, status: Status, dependsOn: seq<string>,
    fallback: FailurePolicy, outputContract: Json, toolPolicy: Policy,
    inputRef: Option<string>, outputRef: Option<string>)

  datatype Contract = Contract(profileId: string, version: string, outputSchema: Json, toolPolicy: Policy)

  datatype Output = Output(summary: string, resultRef: Option<string>, messages: seq<Json>, metadata: Json)

  datatype PlanInput = PlanInput(
    planTraceId: string, steps: seq<Step>, contracts: seq<Contract>,
    requestedTools: map<string, seq<string>>, traceId: string)

  datatype DependencyRef = DependencyRef(stepId: string, outputRef: string)

  /** What the runtime client is given for one step. */
  datatype Call = Call(step: Step, dependencies: seq<DependencyRef>, policy: Policy, outputSchema: Json,
      tools: seq<string>)

  datatype PlanError =
    | NoSteps | TraceMismatch | InvalidStep | DuplicateStepIds
    | DependencyNotCompleted | ContractMissing | VersionMismatch | ToolRefused(tool: ToolError)
    | OutputInvalid(reason: Schema.Reason) | MissingOutputRef | ClientFailed(code: string) | NoOutput

  /** The client, as the reply it gives at each plan position. Every run of a stateful client is one
      such function. */
  type Client = (nat, Call) -> Result<Output, string>

  datatype Summary = Summary(stepId: string, profileId: string, status: Status, outputRef: Option<string>,
      errorCode: Option<string>)

  datatype PlanResult = PlanResult(output: Output, status: Status, steps: seq<Step>, summaries: seq<Summary>)

  function ToJson(o: Output): Json {
    Obj([Field("messages", Arr(o.messages)),
         Field("metadata", o.metadata),
         Field("result_ref", if o.resultRef.Some? then Str(o.resultRef.value) else Null),
         Field("result_summary", Str(o.summary))])
  }

  predicate SchemaIsEmpty(schema: Json) {
    !schema.Obj? || schema.fields == []
  }

  function ValidateOutput(schema: Json, o: Output): Schema.Verdict {
    if SchemaIsEmpty(schema) then Ok(()) else Schema.Validate(schema, ToJson(o))
  }

  /** Collecting into a map: the last contract of a profile wins. */
  function FindContract(contracts: seq<Contract>, profileId: string): Option<Contract> {
    if contracts == [] then None
    else if contracts[|contracts| - 1].profileId == profileId then Some(contracts[|contracts| - 1])
    else FindContract(contracts[..|contracts| - 1], profileId)
  }

  // ---------------------------------------------------------------- what one step does

  datatype Outcome =
    | Done(step: Step, call: Call, output: Output)
    | Fails(step: Step, code: string, error: PlanError)   // recorded, then the failure policy decides
    | Aborts(error: PlanError)                            // ends the plan whatever the policy

  function Prepare(step: Step, contract: Contract, dependencies: seq<DependencyRef>): Step {
    step.(status := Executing,
          toolPolicy := if HasRules(step.toolPolicy) then step.toolPolicy else contract.toolPolicy,
          outputContract := if !SchemaIsEmpty(step.outputContract) then step.outputContract else contract.outputSchema,
          inputRef := if dependencies == [] then None else Some(dependencies[0].outputRef))
  }

  function PrepareCall(step: Step, contract: Contract, dependencies: seq<DependencyRef>, requested: seq<string>): Call {
    var prepared := Prepare(step, contract, dependencies);
    var tools := if HasRules(step.toolPolicy) then EffectiveToolsForRequest(step.toolPolicy, requested) else requested;
    Call(prepared, dependencies, prepared.toolPolicy, prepared.outputContract, tools)
  }

  function RequestedTools(input: PlanInput, profileId: string): seq<string> {
    if profileId in input.requestedTools then input.requestedTools[profileId] else []
  }

  /** A step whose dependencies are resolved. */
  function ExecuteStep(client: Client, input: PlanInput, i: nat, dependencies: seq<DependencyRef>): Outcome
    requires i < |input.steps|
  {
    var step := input.steps[i];
    var contract := FindContract(input.contracts, step.profileId);
    if contract.None? then Aborts(ContractMissing)
    else if step.contractVersion != contract.value.version then Aborts(VersionMismatch)
    else
      var requested := RequestedTools(input, step.profileId);
      var scope := ValidateRequestedTools(contract.value.toolPolicy, requested);
      if scope.Err? then Aborts(ToolRefused(scope.error))
      else
        var call := PrepareCall(step, contract.value, dependencies, requested);
        var narrowed := ValidateRequestedTools(call.policy, call.tools);
        if narrowed.Err? then Aborts(ToolRefused(narrowed.error))
        else match client(i, call)
          case Err(code) => Fails(call.step.(status := Failed), "step_failed", ClientFailed(code))
          case Ok(output) =>
            var verdict := ValidateOutput(call.step.outputContract, output);
            if verdict.Err? then
                Fails(call.step.(status := Failed), "step_output_invalid", OutputInvalid(verdict.error))
            else if output.resultRef.None? then
                Fails(call.step.(status := Failed), "step_missing_output_ref", MissingOutputRef)
            else Done(call.step.(status := Completed, outputRef := output.resultRef), call, output)
  }

  /** What happens at position i, provided the plan gets there. */
  function OutcomeOf(client: Client, input: PlanInput, i: nat): Outcome
    requires i < |input.steps|
    decreases i, 2
  {
    var step := input.steps[i];
    var dependencies := Dependencies(client, input, i, step.dependsOn);
    if dependencies.None? then Fails(step.(status := Failed), "dependency_not_completed", DependencyNotCompleted)
    else ExecuteStep(client, input, i, dependencies.value)
  }

  function Dependencies(client: Client, input: PlanInput, i: nat,
      dependsOn: seq<string>): (r: Option<seq<DependencyRef>>)
    requires i < |input.steps|
    ensures r.Some? <==> forall k | 0 <= k < |dependsOn| :: CompletedRef(client, input, i, dependsOn[k]).Some?
    ensures r.Some? ==> |r.value| == |dependsOn| && forall k | 0 <= k < |dependsOn| ::
              r.value[k] == DependencyRef(dependsOn[k], CompletedRef(client, input, i, dependsOn[k]).value)
    decreases i, 1
  {
    if forall k | 0 <= k < |dependsOn| :: CompletedRef(client, input, i, dependsOn[k]).Some? then
      Some(seq(|dependsOn|, k requires 0 <= k < |dependsOn| =>
        DependencyRef(dependsOn[k], CompletedRef(client, input, i, dependsOn[k]).value)))
    else None
  }

  /** The output ref of the latest step before n with that id that completed. */
  function CompletedRef(client: Client, input: PlanInput, n: nat, stepId: string): Option<string>
    requires n <= |input.steps|
    decreases n, 0
  {
    if n == 0 then None
    else
      var o := OutcomeOf(client, input, n - 1);
      if input.steps[n - 1].stepId == stepId && o.Done? then o.step.outputRef
      else CompletedRef(client, input, n - 1, stepId)
  }

  // ---------------------------------------------------------------- the executor

  /** Step n ends the plan. */
  predicate Ends(client: Client, input: PlanInput, n: nat)
    requires n < |input.steps|
  {
    var o := OutcomeOf(client, input, n);
    o.Aborts? || (o.Fails? && input.steps[n].fallback == Stop)
  }

  function ErrorAt(client: Client, input: PlanInput, n: nat): PlanError
    requires n < |input.steps| && Ends(client, input, n)
  {
    OutcomeOf(client, input, n).error
  }

  predicate GoesThrough(client: Client, input: PlanInput, n: nat)
    requires n <= |input.steps|
  {
    forall i | 0 <= i < n :: !Ends(client, input, i)
  }

  function Record(client: Client, input: PlanInput, i: nat): Step
    requires i < |input.steps| && !Ends(client, input, i)
  {
    OutcomeOf(client, input, i).step
  }

  function Summarize(client: Client, input: PlanInput, i: nat): Summary
    requires i < |input.steps| && !Ends(client, input, i)
  {
    match OutcomeOf(client, input, i)
    case Done(step, _, output) => Summary(step.stepId, step.profileId, Completed, output.resultRef, None)
    case Fails(step, code, _) => Summary(step.stepId, step.profileId, Failed, None, Some(code))
  }

  /** What the steps before n do. */
  function OutcomesOf(client: Client, input: PlanInput, n: nat): (outcomes: seq<Outcome>)
    requires n <= |input.steps|
    ensures |outcomes| == n
  {
    seq(n, i requires 0 <= i < n => OutcomeOf(client, input, i))
  }

  /** The output of the last completed step. */
  function LastOutput(outcomes: seq<Outcome>): Option<Output> {
    if outcomes == [] then None
    else
      var last := outcomes[|outcomes| - 1];
      if last.Done? then Some(last.output) else LastOutput(outcomes[..|outcomes| - 1])
  }

  predicate AnyFailed(outcomes: seq<Outcome>) {
    outcomes != [] && (outcomes[|outcomes| - 1].Fails? || AnyFailed(outcomes[..|outcomes| - 1]))
  }

  lemma OneMoreOutcome(client: Client, input: PlanInput, n: nat)
    requires n < |input.steps|
    ensures var outcomes, o := OutcomesOf(client, input, n), OutcomeOf(client, input, n);
            && OutcomesOf(client, input, n + 1) == outcomes + [o]
            && LastOutput(outcomes + [o]) == (if o.Done? then Some(o.output) else LastOutput(outcomes))
            && AnyFailed(outcomes + [o]) == (o.Fails? || AnyFailed(outcomes))
  {
    var outcomes, o := OutcomesOf(client, input, n), OutcomeOf(client, input, n);
    assert (outcomes + [o])[..n] == outcomes;
  }

  /** The steps before n and their summaries are recorded. */
  ghost predicate Recorded(client: Client, input: PlanInput, n: nat, steps: seq<Step>, summaries: seq<Summary>)
    requires n <= |input.steps| && GoesThrough(client, input, n)
  {
    && |steps| == n && |summaries| == n
    && forall i | 0 <= i < n :: steps[i] == Record(client, input, i) && summaries[i] == Summarize(client, input, i)
  }

  /** What the run up to position n has left: the recorded steps and their summaries, the output of
      the last completed step, and whether a step failed and was passed over. */
  ghost predicate Progress(client: Client, input: PlanInput, n: nat, steps: seq<Step>, summaries: seq<Summary>,
                           last: Option<Output>, anyFailed: bool)
    requires n <= |input.steps|
  {
    && GoesThrough(client, input, n)
    && Recorded(client, input, n, steps, summaries)
    && anyFailed == AnyFailed(OutcomesOf(client, input, n))
    && last == LastOutput(OutcomesOf(client, input, n))
  }

  lemma OneMoreGoesThrough(client: Client, input: PlanInput, n: nat)
    requires n < |input.steps| && GoesThrough(client, input, n) && !Ends(client, input, n)
    ensures GoesThrough(client, input, n + 1)
  {
    forall i | 0 <= i < n + 1 ensures !Ends(client, input, i) {
      if i < n { assert !Ends(client, input, i); }
    }
  }

  lemma OneMoreRecorded(client: Client, input: PlanInput, n: nat, steps: seq<Step>, summaries: seq<Summary>)
    requires n < |input.steps| && GoesThrough(client, input, n) && GoesThrough(client, input, n + 1)
    requires Recorded(client, input, n, steps, summaries) && !Ends(client, input, n)
    ensures Recorded(client, input, n + 1, steps + [Record(client, input, n)],
        summaries + [Summarize(client, input, n)])
  {
    var steps', summaries' := steps + [Record(client, input, n)], summaries + [Summarize(client, input, n)];
    forall i | 0 <= i < n + 1
      ensures steps'[i] == Record(client, input, i) && summaries'[i] == Summarize(client, input, i)
    {
      if i < n { assert steps'[i] == steps[i] && summaries'[i] == summaries[i]; }
    }
  }

  /** A step that does not end the plan carries the run one position further. */
  lemma OneMoreStep(client: Client, input: PlanInput, n: nat, steps: seq<Step>, summaries: seq<Summary>,
                    last: Option<Output>, anyFailed: bool)
    requires n < |input.steps| && Progress(client, input, n, steps, summaries, last, anyFailed)
    requires !Ends(client, input, n)
    ensures var o := OutcomeOf(client, input, n);
            Progress(client, input, n + 1, steps + [Record(client, input, n)],
                summaries + [Summarize(client, input, n)],
                     if o.Done? then Some(o.output) else last, o.Fails? || anyFailed)
  {
    OneMoreOutcome(client, input, n);
    OneMoreGoesThrough(client, input, n);
    OneMoreRecorded(client, input, n, steps, summaries);
  }

  /** What is wrong with step i by itself, and with respect to the steps before it. */
  function StepFault(steps: seq<Step>, i: nat): Option<PlanError>
    requires i < |steps|
  {
    if Text.IsBlank(steps[i].stepId) || Text.IsBlank(steps[i].profileId) then Some(InvalidStep)
    else if exists j | 0 <= j < i :: steps[j].stepId == steps[i].stepId then Some(DuplicateStepIds)
    else None
  }

  ghost predicate WellShaped(input: PlanInput) {
    && input.steps != [] && input.planTraceId == input.traceId
    && forall i | 0 <= i < |input.steps| :: StepFault(input.steps, i).None?
  }

  /** The plan is refused before any step runs; error names the first fault. */
  ghost predicate RefusedFor(input: PlanInput, error: PlanError) {
    if input.steps == [] then error == NoSteps
    else if input.planTraceId != input.traceId then error == TraceMismatch
    else exists i | 0 <= i < |input.steps| ::
           && StepFault(input.steps, i) == Some(error)
           && forall j | 0 <= j < i :: StepFault(input.steps, j).None?
  }

  method CheckShape(input: PlanInput) returns (r: Option<PlanError>)
    ensures r.None? <==> WellShaped(input)
    ensures r.Some? ==> RefusedFor(input, r.value)
  {
    if input.steps == [] { return Some(NoSteps); }
    if input.planTraceId != input.traceId { return Some(TraceMismatch); }
    var seen: set<string> := {};
    var i := 0;
    while i < |input.steps|
      invariant 0 <= i <= |input.steps|
      invariant forall id :: id in seen <==> exists j | 0 <= j < i :: input.steps[j].stepId == id
      invariant forall j | 0 <= j < i :: StepFault(input.steps, j).None?
    {
      var step := input.steps[i];
      if Text.IsBlank(step.stepId) || Text.IsBlank(step.profileId) {
        assert StepFault(input.steps, i) == Some(InvalidStep);
        return Some(InvalidStep);
      }
      if step.stepId in seen {
        assert StepFault(input.steps, i) == Some(DuplicateStepIds);
        return Some(DuplicateStepIds);
      }
      seen := seen + {step.stepId};
      i := i + 1;
    }
    return None;
  }

  /** The plan fails with the error of the first step that ends it. */
  ghost predicate FailsAt(client: Client, input: PlanInput, n: nat, error: PlanError) {
    n < |input.steps| && GoesThrough(client, input, n) && Ends(client, input, n) && error == ErrorAt(client, input, n)
  }

  /** refs holds the output ref of every step before n that completed, by id. */
  ghost predicate RefsKnown(client: Client, input: PlanInput, n: nat, refs: map<string, string>)
    requires n <= |input.steps|
  {
    && (forall id :: id in refs <==> CompletedRef(client, input, n, id).Some?)
    && (forall id | id in refs :: CompletedRef(client, input, n, id) == Some(refs[id]))
  }

  lemma RefsAfterStep(client: Client, input: PlanInput, n: nat, refs: map<string, string>)
    requires n < |input.steps| && RefsKnown(client, input, n, refs)
    ensures var o := OutcomeOf(client, input, n);
            && (!o.Done? ==> RefsKnown(client, input, n + 1, refs))
            && (o.Done? ==>
                  && o.step.outputRef.Some?
                  && RefsKnown(client, input, n + 1, refs[o.step.stepId := o.step.outputRef.value]))
  {
    OutcomeKeepsStep(client, input, n);
  }

  method ResolveDependencies(ghost client: Client, ghost input: PlanInput, ghost i: nat,
                             refs: map<string, string>, dependsOn: seq<string>)
    returns (r: Option<seq<DependencyRef>>)
    requires i < |input.steps|
    requires RefsKnown(client, input, i, refs)
    ensures r == Dependencies(client, input, i, dependsOn)
  {
    var found: seq<DependencyRef> := [];
    var k := 0;
    while k < |dependsOn|
      invariant 0 <= k <= |dependsOn|
      invariant |found| == k
      invariant forall j | 0 <= j < k ::
                  dependsOn[j] in refs && found[j] == DependencyRef(dependsOn[j], refs[dependsOn[j]])
    {
      if dependsOn[k] !in refs { return None; }
      found := found + [DependencyRef(dependsOn[k], refs[dependsOn[k]])];
      k := k + 1;
    }
    assert found == Dependencies(client, input, i, dependsOn).value;
    return Some(found);
  }

  method RunStep(client: Client, input: PlanInput, i: nat, refs: map<string, string>) returns (outcome: Outcome)
    requires i < |input.steps|
    requires RefsKnown(client, input, i, refs)
    ensures outcome == OutcomeOf(client, input, i)
  {
    var step := input.steps[i];
    var dependencies := ResolveDependencies(client, input, i, refs, step.dependsOn);
    if dependencies.None? {
      outcome := Fails(step.(status := Failed), "dependency_not_completed", DependencyNotCompleted);
    } else {
      outcome := ExecuteStep(client, input, i, dependencies.value);
    }
  }

  lemma OutcomeKeepsStep(client: Client, input: PlanInput, i: nat)
    requires i < |input.steps|
    ensures var o := OutcomeOf(client, input, i);
            && (!o.Aborts? ==> o.step.stepId == input.steps[i].stepId && o.step.profileId == input.steps[i].profileId)
            && (o.Done? ==> o.step.outputRef.Some? && o.step.outputRef == o.output.resultRef)
  {
  }

  /** The variables of the loop. */
  datatype Locals = Locals(
    outputRefs: map<string, string>, completedSteps: seq<Step>, summaries: seq<Summary>, lastOutput: Option<Output>,
    hadFailedContinuedStep: bool)

  ghost predicate Reached(client: Client, input: PlanInput, n: nat, v: Locals)
    requires n <= |input.steps|
  {
    && Progress(client, input, n, v.completedSteps, v.summaries, v.lastOutput, v.hadFailedContinuedStep)
    && RefsKnown(client, input, n, v.outputRefs)
  }

  /** The body of the loop: run step i and record it, or end the plan. */
  method TakeStep(client: Client, input: PlanInput, i: nat, v: Locals) returns (r: Result<Locals, PlanError>)
    requires i < |input.steps| && Reached(client, input, i, v)
    ensures r.Ok? ==> Reached(client, input, i + 1, r.value)
    ensures r.Err? ==> FailsAt(client, input, i, r.error)
  {
    var outcome := RunStep(client, input, i, v.outputRefs);
    RefsAfterStep(client, input, i, v.outputRefs);
    if !Ends(client, input, i) {
      OneMoreStep(client, input, i, v.completedSteps, v.summaries, v.lastOutput, v.hadFailedContinuedStep);
    }
    match outcome {
      case Aborts(error) =>
        return Err(error);
      case Fails(failed, code, error) =>
        if input.steps[i].fallback != Continue { return Err(error); }
        return Ok(v.(summaries := v.summaries + [Summary(failed.stepId, failed.profileId, Failed, None, Some(code))],
                     completedSteps := v.completedSteps + [failed],
                     hadFailedContinuedStep := true));
      case Done(done, _, output) =>
        return Ok(v.(outputRefs := v.outputRefs[done.stepId := done.outputRef.value],
                     summaries := v.summaries
                         + [Summary(done.stepId, done.profileId, Completed, output.resultRef, None)],
                     completedSteps := v.completedSteps + [done],
                     lastOutput := Some(output)));
    }
  }

  /** `execute_runtime_step_plan`. */
  method ExecutePlan(client: Client, input: PlanInput) returns (r: Result<PlanResult, PlanError>)
    ensures !WellShaped(input) ==> r.Err? && RefusedFor(input, r.error)
    ensures r.Ok? ==>
              exists last, anyFailed ::
                && Progress(client, input, |input.steps|, r.value.steps, r.value.summaries, Some(last), anyFailed)
                && r.value.status == (if anyFailed then Failed else Completed)
                && r.value.output == last.(metadata := if last.metadata.Obj? then last.metadata else Obj([]))
    ensures WellShaped(input) && r.Err? ==>
              || (exists n :: FailsAt(client, input, n, r.error))
              || (r.error == NoOutput && exists steps, summaries, anyFailed ::
                    Progress(client, input, |input.steps|, steps, summaries, None, anyFailed))
  {
    var shape := CheckShape(input);
    if shape.Some? { return Err(shape.value); }
    var v := Locals(map[], [], [], None, false);
    var i := 0;
    while i < |input.steps|
      invariant 0 <= i <= |input.steps|
      invariant Reached(client, input, i, v)
    {
      var taken := TakeStep(client, input, i, v);
      if taken.Err? { return Err(taken.error); }
      v := taken.value;
      i := i + 1;
    }
    if v.lastOutput.None? { return Err(NoOutput); }
    var output := v.lastOutput.value;
    if !output.metadata.Obj? { output := output.(metadata := Obj([])); }
    return Ok(PlanResult(output, if v.hadFailedContinuedStep then Failed
        else Completed, v.completedSteps, v.summaries));
  }
}
