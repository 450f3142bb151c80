/** What becomes of each step of a plan, case by case, in terms of the plan, the contracts and the client. */
module StepPlanOutcomes {
  import opened Wrappers
  import opened Json
  import opened ToolPolicy
  import opened StepPlan
  import opened StepPlanTheorems
  import Schema
  import SchemaTheorems

  /** Contract j is the last one given for the profile of step i. */
  ghost predicate ContractIs(input: PlanInput, i: nat, j: nat)
    requires i < |input.steps|
  {
    && j < |input.contracts| && input.contracts[j].profileId == input.steps[i].profileId
    && forall k | j < k < |input.contracts| :: input.contracts[k].profileId != input.steps[i].profileId
  }

  ghost predicate HasContract(input: PlanInput, i: nat)
    requires i < |input.steps|
  {
    exists j: nat :: ContractIs(input, i, j)
  }

  lemma {:induction false} FindContractMeans(contracts: seq<Contract>, profileId: string) returns (j: nat)
    ensures FindContract(contracts, profileId).None? ==>
        forall k | 0 <= k < |contracts| :: contracts[k].profileId != profileId
    ensures FindContract(contracts, profileId).Some? ==>
              && j < |contracts| && contracts[j].profileId == profileId
              && FindContract(contracts, profileId) == Some(contracts[j])
              && forall k | j < k < |contracts| :: contracts[k].profileId != profileId
  {
    j := 0;
    if contracts != [] {
      var n := |contracts| - 1;
      if contracts[n].profileId == profileId { j := n; } else { j := FindContractMeans(contracts[..n], profileId); }
    }
  }

  /** The tools requested for the step's profile, if any are. */
  ghost function Requested(input: PlanInput, i: nat): seq<string>
    requires i < |input.steps|
  {
    var profileId := input.steps[i].profileId;
    if profileId in input.requestedTools.Keys then input.requestedTools[profileId] else []
  }

  /** The step can be handed to the client once its dependencies are done: its profile has a contract of
      the step's version that lets every requested tool be used. */
  ghost predicate Callable(input: PlanInput, i: nat)
    requires i < |input.steps|
  {
    exists j: nat :: ContractIs(input, i, j) && Admits(input, i, j)
  }

  ghost predicate Admits(input: PlanInput, i: nat, j: nat)
    requires i < |input.steps| && ContractIs(input, i, j)
  {
    && input.steps[i].contractVersion == input.contracts[j].version
    && forall tool | tool in Requested(input, i) :: MayUse(input.contracts[j].toolPolicy, tool)
  }

  /** The one contract that counts, if there is one. */
  lemma TheContract(input: PlanInput, i: nat) returns (j: nat)
    requires i < |input.steps|
    ensures var found := FindContract(input.contracts, input.steps[i].profileId);
            && (found.Some? <==> HasContract(input, i))
            && (found.Some? ==> ContractIs(input, i, j) && found.value == input.contracts[j])
            && (found.Some? ==> forall k: nat | ContractIs(input, i, k) :: k == j)
  {
    j := FindContractMeans(input.contracts, input.steps[i].profileId);
    if FindContract(input.contracts, input.steps[i].profileId).Some? {
      assert ContractIs(input, i, j);
      forall k: nat | ContractIs(input, i, k) ensures k == j { }
    }
  }

  /** The client is called at i iff the dependencies are done and the step is callable. */
  lemma CallMadeIff(client: Client, input: PlanInput, i: nat)
    requires i < |input.steps|
    ensures CallMade(client, input, i).Some? <==> DependenciesDone(client, input, i) && Callable(input, i)
  {
    var j := TheContract(input, i);
    DependenciesMean(client, input, i);
    if HasContract(input, i) {
      RequestPassesIffUsable(input.contracts[j].toolPolicy, Requested(input, i));
      assert Callable(input, i) <==> Admits(input, i, j);
    }
  }

  ghost predicate SchemaGiven(schema: Json) {
    schema.Obj? && schema.fields != []
  }

  ghost predicate RulesGiven(p: Policy) {
    p.allowed != [] || p.denied != [] || p.specs != []
  }

  /** What the client is given: the step's own policy and output schema where the step has them, the
      contract's otherwise; the requested tools, narrowed by the step's policy if it has one; and the
      output ref of the first dependency as input. */
  lemma CallMeans(client: Client, input: PlanInput, i: nat) returns (j: nat)
    requires i < |input.steps| && CallMade(client, input, i).Some?
    ensures ContractIs(input, i, j)
    ensures var call, step, contract := CallMade(client, input, i).value, input.steps[i], input.contracts[j];
            var requested := Requested(input, i);
            && call.policy == (if RulesGiven(step.toolPolicy) then step.toolPolicy else contract.toolPolicy)
            && call.outputSchema ==
                (if SchemaGiven(step.outputContract) then step.outputContract else contract.outputSchema)
            && (RulesGiven(step.toolPolicy) ==>
                  forall tool :: tool in call.tools <==> tool in requested && MayUse(step.toolPolicy, tool))
            && (!RulesGiven(step.toolPolicy) ==> call.tools == requested)
            && call.step == step.(status := Executing, toolPolicy := call.policy, outputContract := call.outputSchema,
                                  inputRef := if call.dependencies == [] then None
                                      else Some(call.dependencies[0].outputRef))
  {
    j := TheContract(input, i);
    var step := input.steps[i];
    forall tool
      ensures tool in EffectiveToolsForRequest(step.toolPolicy, Requested(input, i)) <==>
              tool in Requested(input, i) && MayUse(step.toolPolicy, tool)
    {
      EffectiveIffUsable(step.toolPolicy, Requested(input, i), tool);
    }
  }

  /** The object the client's output is validated as. */
  ghost predicate Renders(v: Json, o: Output) {
    && v.Obj? && |v.fields| == 4
    && v.fields[0] == Field("messages", Arr(o.messages)) && v.fields[1] == Field("metadata", o.metadata)
    && v.fields[2] == Field("result_ref", match o.resultRef case Some(ref) => Str(ref) case None => Null)
    && v.fields[3] == Field("result_summary", Str(o.summary))
  }

  /** The output breaks the schema somewhere, for this reason. */
  ghost predicate Breaks(schema: Json, o: Output, reason: Schema.Reason) {
    SchemaGiven(schema) && exists v, path ::
        Renders(v, o) && SchemaTheorems.ViolatedAt(SchemaTheorems.Pair(schema, v), path, reason)
  }

  lemma RendersMeans(o: Output)
    ensures forall v :: Renders(v, o) <==> v == ToJson(o)
  {
  }

  ghost predicate Fits(schema: Json, o: Output) {
    forall reason :: !Breaks(schema, o, reason)
  }

  lemma ValidateOutputMeans(schema: Json, o: Output)
    ensures ValidateOutput(schema, o).Ok? <==> Fits(schema, o)
    ensures ValidateOutput(schema, o).Err? ==> Breaks(schema, o, ValidateOutput(schema, o).error)
  {
    RendersMeans(o);
    if SchemaGiven(schema) {
      SchemaTheorems.AcceptsIffNoViolation(schema, ToJson(o));
      if ValidateOutput(schema, o).Err? {
        var path := SchemaTheorems.RejectionIsJustified(schema, ToJson(o));
        assert Breaks(schema, o, ValidateOutput(schema, o).error);
      }
    }
  }

  lemma AfterCall(client: Client, input: PlanInput, i: nat)
    requires i < |input.steps| && CallMade(client, input, i).Some?
    ensures var call := CallMade(client, input, i).value;
            var reply, schema, o := client(i, call), call.outputSchema, OutcomeOf(client, input, i);
            && (reply.Err? ==> o == Fails(call.step.(status := Failed), "step_failed", ClientFailed(reply.error)))
            && (reply.Ok? && ValidateOutput(schema, reply.value).Err? ==>
                  o == Fails(call.step.(status := Failed), "step_output_invalid",
                             OutputInvalid(ValidateOutput(schema, reply.value).error)))
            && (reply.Ok? && ValidateOutput(schema, reply.value).Ok? && reply.value.resultRef.None? ==>
                  o == Fails(call.step.(status := Failed), "step_missing_output_ref", MissingOutputRef))
            && (reply.Ok? && ValidateOutput(schema, reply.value).Ok? && reply.value.resultRef.Some? ==>
                  o == Done(call.step.(status := Completed, outputRef := reply.value.resultRef), call, reply.value))
  {
    var contract := FindContract(input.contracts, input.steps[i].profileId).value;
    var dependencies := Dependencies(client, input, i, input.steps[i].dependsOn).value;
    SecondScopeCheckPasses(input, i, contract, dependencies);
  }

  lemma BeforeCall(client: Client, input: PlanInput, i: nat)
    requires i < |input.steps| && CallMade(client, input, i).None?
    ensures var o := OutcomeOf(client, input, i);
            && (!DependenciesDone(client, input, i) ==>
                  o == Fails(input.steps[i].(status := Failed), "dependency_not_completed", DependencyNotCompleted))
            && (DependenciesDone(client, input, i) ==> o.Aborts?)
  {
    DependenciesMean(client, input, i);
  }

  /** A step fails iff a dependency is not done, or the client is called and errs, or its output breaks
      the schema, or has no ref. A failed step is recorded, and its policy decides about the plan. */
  lemma FailsIff(client: Client, input: PlanInput, i: nat)
    requires i < |input.steps|
    ensures HasFailed(client, input, i) <==>
              || !DependenciesDone(client, input, i)
              || (&& CallMade(client, input, i).Some?
                  && var call := CallMade(client, input, i).value;
                     var reply := client(i, call);
                     reply.Err? || !Fits(call.outputSchema, reply.value) || reply.value.resultRef.None?)
  {
    DependenciesMean(client, input, i);
    if CallMade(client, input, i).Some? {
      var call := CallMade(client, input, i).value;
      AfterCall(client, input, i);
      if client(i, call).Ok? { ValidateOutputMeans(call.outputSchema, client(i, call).value); }
    } else {
      BeforeCall(client, input, i);
    }
  }

  /** The code and the error of a failed step, and the step that is recorded for it, case by case. */
  lemma FailuresAreNamed(client: Client, input: PlanInput, i: nat)
    requires i < |input.steps| && HasFailed(client, input, i)
    ensures var o, made := OutcomeOf(client, input, i), CallMade(client, input, i);
            if !DependenciesDone(client, input, i) then
              && o.code == "dependency_not_completed" && o.error == DependencyNotCompleted
              && o.step == input.steps[i].(status := Failed)
            else
              && made.Some? && o.step == made.value.step.(status := Failed)
              && var reply, schema := client(i, made.value), made.value.outputSchema;
                 if reply.Err? then o.code == "step_failed" && o.error == ClientFailed(reply.error)
                 else if !Fits(schema, reply.value) then
                   && o.code == "step_output_invalid" && o.error.OutputInvalid?
                   && Breaks(schema, reply.value, o.error.reason)
                 else o.code == "step_missing_output_ref" && o.error == MissingOutputRef
  {
    DependenciesMean(client, input, i);
    if CallMade(client, input, i).Some? {
      var call := CallMade(client, input, i).value;
      AfterCall(client, input, i);
      if client(i, call).Ok? { ValidateOutputMeans(call.outputSchema, client(i, call).value); }
    } else {
      BeforeCall(client, input, i);
    }
  }

  /** A step ends the plan outright iff its dependencies are done and it is not callable: no contract for
      its profile, one of another version, or one that refuses a requested tool. */
  lemma AbortsIff(client: Client, input: PlanInput, i: nat)
    requires i < |input.steps|
    ensures OutcomeOf(client, input, i).Aborts? <==> DependenciesDone(client, input, i) && !Callable(input, i)
  {
    CallMadeIff(client, input, i);
    DependenciesMean(client, input, i);
    if CallMade(client, input, i).Some? {
      AfterCall(client, input, i);
    } else {
      BeforeCall(client, input, i);
    }
  }

  lemma AbortsAreNamed(client: Client, input: PlanInput, i: nat)
    requires i < |input.steps| && OutcomeOf(client, input, i).Aborts?
    ensures var error := OutcomeOf(client, input, i).error;
            if !HasContract(input, i) then error == ContractMissing
            else forall j: nat | ContractIs(input, i, j) ::
                   if input.steps[i].contractVersion != input.contracts[j].version then error == VersionMismatch
                   else error.ToolRefused?
  {
    var j := TheContract(input, i);
    DependenciesMean(client, input, i);
    AbortsIff(client, input, i);
    if HasContract(input, i) {
      RequestPassesIffUsable(input.contracts[j].toolPolicy, Requested(input, i));
      assert !Admits(input, i, j);
    }
  }

  /** The summary of a recorded step: its id, profile and status, and the ref or the code that belong to it. */
  lemma SummariesAreNamed(client: Client, input: PlanInput, i: nat)
    requires i < |input.steps| && !Ends(client, input, i)
    ensures var summary, o := Summarize(client, input, i), OutcomeOf(client, input, i);
            && summary.stepId == input.steps[i].stepId && summary.profileId == input.steps[i].profileId
            && (IsDone(client, input, i) ==>
                  summary.status == Completed && summary.outputRef == o.output.resultRef && summary.errorCode.None?)
            && (HasFailed(client, input, i) ==>
                  summary.status == Failed && summary.outputRef.None? && summary.errorCode == Some(o.code))
  {
    OutcomeKeepsStep(client, input, i);
  }

  /** Every step goes on after a failure, and can be handed to the client. */
  ghost predicate AllGoOn(input: PlanInput) {
    forall i | 0 <= i < |input.steps| :: input.steps[i].fallback == Continue && Callable(input, i)
  }

  /** No step of such a plan ends it, whatever the client does. */
  lemma GoesOnToTheEnd(client: Client, input: PlanInput)
    requires AllGoOn(input)
    ensures GoesThrough(client, input, |input.steps|)
    ensures forall n: nat, error :: !FailsAt(client, input, n, error)
  {
    forall i | 0 <= i < |input.steps| ensures !Ends(client, input, i) {
      assert input.steps[i].fallback == Continue && Callable(input, i);
      AbortsIff(client, input, i);
    }
  }

  /** A well-shaped plan all of whose steps go on never returns the error of a step: it returns an output
      iff some step completed, and otherwise reports that there is none. */
  method ExecuteGoingOn(client: Client, input: PlanInput) returns (r: Result<PlanResult, PlanError>)
    requires WellShaped(input) && AllGoOn(input)
    ensures r.Err? ==> r.error == NoOutput
    ensures r.Ok? <==> exists i | 0 <= i < |input.steps| :: IsDone(client, input, i)
  {
    GoesOnToTheEnd(client, input);
    r := ExecutePlan(client, input);
    var outcomes := OutcomesOf(client, input, |input.steps|);
    var i := LastOutputMeans(outcomes);
    if LastOutput(outcomes).Some? {
      assert IsDone(client, input, i);
    } else {
      forall k | 0 <= k < |input.steps| ensures !IsDone(client, input, k) { assert !outcomes[k].Done?; }
    }
  }
}
