/** What a step plan guarantees, for every behaviour of the runtime client. */
module StepPlanTheorems {
  import opened Wrappers
  import opened Json
  import opened ToolPolicy
  import opened StepPlan

  predicate IsDone(client: Client, input: PlanInput, i: nat) {
    i < |input.steps| && OutcomeOf(client, input, i).Done?
  }

  predicate HasFailed(client: Client, input: PlanInput, i: nat) {
    i < |input.steps| && OutcomeOf(client, input, i).Fails?
  }

  ghost predicate DistinctIds(steps: seq<Step>) {
    forall i, j | 0 <= i < j < |steps| :: steps[i].stepId != steps[j].stepId
  }

  lemma ShapeGivesDistinctIds(input: PlanInput)
    requires WellShaped(input)
    ensures DistinctIds(input.steps)
  {
    forall i, j | 0 <= i < j < |input.steps| ensures input.steps[i].stepId != input.steps[j].stepId {
      assert StepFault(input.steps, j).None?;
    }
  }

  lemma {:induction false} KnownRefIsOf(client: Client, input: PlanInput, n: nat, id: string) returns (j: nat)
    requires n <= |input.steps| && CompletedRef(client, input, n, id).Some?
    ensures j < n && input.steps[j].stepId == id && IsDone(client, input, j)
    ensures CompletedRef(client, input, n, id) == OutcomeOf(client, input, j).output.resultRef
  {
    j := n - 1;
    if input.steps[j].stepId == id && IsDone(client, input, j) {
      OutcomeKeepsStep(client, input, j);
    } else {
      j := KnownRefIsOf(client, input, n - 1, id);
    }
  }

  lemma {:induction false} DoneRefIsKnown(client: Client, input: PlanInput, n: nat, id: string, j: nat)
    requires j < n <= |input.steps| && input.steps[j].stepId == id && IsDone(client, input, j)
    ensures CompletedRef(client, input, n, id).Some?
  {
    if input.steps[n - 1].stepId == id && IsDone(client, input, n - 1) {
      OutcomeKeepsStep(client, input, n - 1);
    } else {
      DoneRefIsKnown(client, input, n - 1, id, j);
    }
  }

  /** A reference is known at n iff a step with that id completed before n. */
  lemma RefIsKnownIff(client: Client, input: PlanInput, n: nat, id: string)
    requires n <= |input.steps|
    ensures CompletedRef(client, input, n, id).Some? <==>
              exists j | 0 <= j < n :: input.steps[j].stepId == id && IsDone(client, input, j)
  {
    if CompletedRef(client, input, n, id).Some? { var j := KnownRefIsOf(client, input, n, id); }
    forall j | 0 <= j < n && input.steps[j].stepId == id && IsDone(client, input, j)
      ensures CompletedRef(client, input, n, id).Some?
    {
      DoneRefIsKnown(client, input, n, id, j);
    }
  }

  /** A reference is known at n iff a step with that id completed before n; it is that step's. */
  lemma CompletedRefMeans(client: Client, input: PlanInput, n: nat, id: string)
    requires n <= |input.steps|
    ensures var ref := CompletedRef(client, input, n, id);
            && (ref.Some? <==> exists j | 0 <= j < n :: input.steps[j].stepId == id && IsDone(client, input, j))
            && (ref.Some? && DistinctIds(input.steps) ==> forall j | 0 <= j < n :: input.steps[j].stepId == id ==>
                  IsDone(client, input, j) && ref == OutcomeOf(client, input, j).output.resultRef)
  {
    RefIsKnownIff(client, input, n, id);
    if CompletedRef(client, input, n, id).Some? && DistinctIds(input.steps) {
      var i := KnownRefIsOf(client, input, n, id);
      forall j | 0 <= j < n && input.steps[j].stepId == id ensures j == i { }
    }
  }

  /** Every dependency names a step that completed strictly earlier in plan order. */
  ghost predicate DependenciesDone(client: Client, input: PlanInput, i: nat)
    requires i < |input.steps|
  {
    forall d | d in input.steps[i].dependsOn ::
      exists j | 0 <= j < i :: input.steps[j].stepId == d && IsDone(client, input, j)
  }

  lemma DependenciesMean(client: Client, input: PlanInput, i: nat)
    requires i < |input.steps|
    ensures Dependencies(client, input, i, input.steps[i].dependsOn).Some? <==> DependenciesDone(client, input, i)
  {
    var dependsOn := input.steps[i].dependsOn;
    forall k | 0 <= k < |dependsOn|
      ensures CompletedRef(client, input, i, dependsOn[k]).Some? <==>
              exists j | 0 <= j < i :: input.steps[j].stepId == dependsOn[k] && IsDone(client, input, j)
    {
      CompletedRefMeans(client, input, i, dependsOn[k]);
    }
    assert forall k | 0 <= k < |dependsOn| :: dependsOn[k] in dependsOn;
    if Dependencies(client, input, i, dependsOn).Some? {
      forall d | d in dependsOn
        ensures exists j | 0 <= j < i :: input.steps[j].stepId == d && IsDone(client, input, j)
      {
        var k :| 0 <= k < |dependsOn| && dependsOn[k] == d;
      }
    }
  }

  /** The call the client gets at position i, when it gets one. */
  function CallMade(client: Client, input: PlanInput, i: nat): Option<Call>
    requires i < |input.steps|
  {
    var step := input.steps[i];
    var dependencies := Dependencies(client, input, i, step.dependsOn);
    var contract := FindContract(input.contracts, step.profileId);
    var requested := RequestedTools(input, step.profileId);
    if dependencies.None? || contract.None? || step.contractVersion != contract.value.version then None
    else if ValidateRequestedTools(contract.value.toolPolicy, requested).Err? then None
    else Some(PrepareCall(step, contract.value, dependencies.value, requested))
  }

  /** The second scope check of the loop can never refuse: the tools were narrowed by the very policy
      that checks them, or already checked by it. */
  lemma SecondScopeCheckPasses(input: PlanInput, i: nat, contract: Contract, dependencies: seq<DependencyRef>)
    requires i < |input.steps|
    requires var requested := RequestedTools(input, input.steps[i].profileId);
             ValidateRequestedTools(contract.toolPolicy, requested).Ok?
    ensures var call :=
        PrepareCall(input.steps[i], contract, dependencies, RequestedTools(input, input.steps[i].profileId));
            ValidateRequestedTools(call.policy, call.tools).Ok?
  {
    NarrowedRequestPasses(input.steps[i].toolPolicy, RequestedTools(input, input.steps[i].profileId));
  }

  /** A step completes iff its dependencies completed strictly earlier, the client is called, and the
      call, its schema and its output ref all succeed. */
  lemma CompletesIff(client: Client, input: PlanInput, i: nat)
    requires i < |input.steps|
    ensures IsDone(client, input, i) <==>
              && DependenciesDone(client, input, i)
              && CallMade(client, input, i).Some?
              && var call := CallMade(client, input, i).value;
                 && client(i, call).Ok?
                 && ValidateOutput(call.step.outputContract, client(i, call).value).Ok?
                 && client(i, call).value.resultRef.Some?
  {
    DependenciesMean(client, input, i);
    var contract := FindContract(input.contracts, input.steps[i].profileId);
    var dependencies := Dependencies(client, input, i, input.steps[i].dependsOn);
    if CallMade(client, input, i).Some? {
      SecondScopeCheckPasses(input, i, contract.value, dependencies.value);
    }
  }

  /** Every tool handed to a step is read-only and effective under both the profile contract and the
      step's own policy, and was requested for the profile: step policies narrow, never widen. */
  lemma CallsAreScoped(client: Client, input: PlanInput, i: nat)
    requires i < |input.steps| && CallMade(client, input, i).Some?
    ensures var call := CallMade(client, input, i).value;
            var contract := FindContract(input.contracts, input.steps[i].profileId);
            && contract.Some?
            && forall tool | tool in call.tools ::
                 && tool in RequestedTools(input, input.steps[i].profileId)
                 && tool in EffectiveTools(contract.value.toolPolicy)
                 && tool in EffectiveTools(call.policy)
                 && SpecFor(contract.value.toolPolicy, tool).Some?
                     && SpecFor(contract.value.toolPolicy, tool).value.readOnly
                 && SpecFor(call.policy, tool).Some? && SpecFor(call.policy, tool).value.readOnly
  {
    var step := input.steps[i];
    var call := CallMade(client, input, i).value;
    var contract := FindContract(input.contracts, step.profileId).value;
    var requested := RequestedTools(input, step.profileId);
    RequestPassesIffEffective(contract.toolPolicy, requested);
    forall tool | tool in call.tools
      ensures tool in requested && tool in EffectiveTools(contract.toolPolicy) && tool in EffectiveTools(call.policy)
      ensures Usable(contract.toolPolicy, tool) && Usable(call.policy, tool)
    {
      if HasRules(step.toolPolicy) { KeepRequestedMeans(EffectiveTools(step.toolPolicy), requested, tool); }
      KeepUsableMeans(contract.toolPolicy, contract.toolPolicy.allowed, tool);
      KeepUsableMeans(call.policy, call.policy.allowed, tool);
    }
  }

  /** The client is told, for each dependency in order, the output ref of the step it names. */
  lemma CallsCarryDependencyOutputs(client: Client, input: PlanInput, i: nat)
    requires WellShaped(input) && i < |input.steps| && CallMade(client, input, i).Some?
    ensures var dependsOn := input.steps[i].dependsOn;
            var given := CallMade(client, input, i).value.dependencies;
            && |given| == |dependsOn|
            && forall k | 0 <= k < |dependsOn| ::
                 && given[k].stepId == dependsOn[k]
                 && exists j | 0 <= j < i :: && input.steps[j].stepId == dependsOn[k] && IsDone(client, input, j)
                                              && OutcomeOf(client, input, j).output.resultRef ==
                                                  Some(given[k].outputRef)
  {
    ShapeGivesDistinctIds(input);
    var dependsOn := input.steps[i].dependsOn;
    forall k | 0 <= k < |dependsOn|
      ensures exists j | 0 <= j < i :: && input.steps[j].stepId == dependsOn[k] && IsDone(client, input, j)
                                        && OutcomeOf(client, input, j).output.resultRef ==
                                            CompletedRef(client, input, i, dependsOn[k])
    {
      CompletedRefMeans(client, input, i, dependsOn[k]);
    }
  }

  /** The last output is that of a completed step after which none completed; with no output none did. */
  lemma {:induction false} LastOutputMeans(outcomes: seq<Outcome>) returns (i: nat)
    ensures LastOutput(outcomes).Some? ==>
              i < |outcomes| && outcomes[i].Done? && LastOutput(outcomes) == Some(outcomes[i].output)
    ensures forall k | (if LastOutput(outcomes).Some? then i + 1 else 0) <= k < |outcomes| :: !outcomes[k].Done?
  {
    i := 0;
    if outcomes != [] {
      var n := |outcomes| - 1;
      if outcomes[n].Done? {
        i := n;
      } else {
        i := LastOutputMeans(outcomes[..n]);
      }
    }
  }

  lemma {:induction false} AnyFailedMeans(outcomes: seq<Outcome>)
    ensures AnyFailed(outcomes) <==> exists o | o in outcomes :: o.Fails?
  {
    if outcomes != [] {
      var n := |outcomes| - 1;
      AnyFailedMeans(outcomes[..n]);
      assert outcomes == outcomes[..n] + [outcomes[n]];
    }
  }

  /** A step that does not end the plan completes or fails, and not both. */
  lemma DoneOrFailed(client: Client, input: PlanInput, k: nat)
    requires k < |input.steps| && !Ends(client, input, k)
    ensures IsDone(client, input, k) != HasFailed(client, input, k)
  {
  }

  /** On success every plan step is recorded once, in order, with the status it earned; a failed one
      has the Continue policy; the output is that of the last completed step; and the failure flag,
      which decides the plan's status, is set iff some step failed. */
  lemma SuccessMeans(client: Client, input: PlanInput, steps: seq<Step>, summaries: seq<Summary>, last: Output,
      anyFailed: bool)
    requires Progress(client, input, |input.steps|, steps, summaries, Some(last), anyFailed)
    ensures |steps| == |summaries| == |input.steps|
    ensures forall i | 0 <= i < |steps| ::
              && steps[i].stepId == summaries[i].stepId == input.steps[i].stepId
              && steps[i].status == summaries[i].status == (if IsDone(client, input, i) then Completed else Failed)
              && (steps[i].status == Completed <==> summaries[i].outputRef.Some?)
              && (steps[i].status == Completed ==> steps[i].outputRef == summaries[i].outputRef)
              && (steps[i].status == Failed ==> input.steps[i].fallback == Continue && summaries[i].errorCode.Some?)
    ensures anyFailed <==> exists i | 0 <= i < |steps| :: steps[i].status == Failed
    ensures exists i | 0 <= i < |steps| ::
              && steps[i].status == Completed && OutcomeOf(client, input, i).output == last
              && forall k | i < k < |steps| :: steps[k].status == Failed
  {
    var n := |input.steps|;
    forall i | 0 <= i < n
      ensures steps[i].stepId == summaries[i].stepId == input.steps[i].stepId
      ensures steps[i].status == summaries[i].status == (if IsDone(client, input, i) then Completed else Failed)
      ensures steps[i].status == Completed <==> summaries[i].outputRef.Some?
      ensures steps[i].status == Completed ==> steps[i].outputRef == summaries[i].outputRef
      ensures steps[i].status == Failed ==> input.steps[i].fallback == Continue && summaries[i].errorCode.Some?
    {
      RecordMeans(client, input, i);
    }
    var outcomes := OutcomesOf(client, input, n);
    forall k | 0 <= k < n
      ensures outcomes[k].Done? <==> steps[k].status == Completed
      ensures outcomes[k].Fails? <==> steps[k].status == Failed
    {
      DoneOrFailed(client, input, k);
    }
    var i := LastOutputMeans(outcomes);
    AnyFailedMeans(outcomes);
    assert steps[i].status == Completed && outcomes[i] == OutcomeOf(client, input, i);
  }

  lemma RecordMeans(client: Client, input: PlanInput, i: nat)
    requires i < |input.steps| && !Ends(client, input, i)
    ensures var step, summary := Record(client, input, i), Summarize(client, input, i);
            && step.stepId == summary.stepId == input.steps[i].stepId
            && step.status == summary.status == (if IsDone(client, input, i) then Completed else Failed)
            && (step.status == Completed <==> summary.outputRef.Some?)
            && (step.status == Completed ==> step.outputRef == summary.outputRef)
            && (step.status == Failed ==> input.steps[i].fallback == Continue && summary.errorCode.Some?)
  {
    OutcomeKeepsStep(client, input, i);
  }
}
