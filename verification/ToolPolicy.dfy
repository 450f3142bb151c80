/** The tool policy of a profile contract or of a single step. */
module ToolPolicy {
  import opened Wrappers
  import opened Json

  datatype ToolSpec = ToolSpec(
    name: string, readOnly: bool, outputRefRequired: bool, inputSchema: Json, outputSchema: Json)

  datatype Policy = Policy(allowed: seq<string>, denied: seq<string>, specs: seq<ToolSpec>)

  datatype ToolError = OutsideScope | Unauthorized | NotReadOnly

  const ANY_OBJECT := Obj([Field("type", Str("object"))])

  function ReadOnlySpec(tool: string): ToolSpec {
    ToolSpec(tool, true, true, ANY_OBJECT, ANY_OBJECT)
  }

  predicate HasRules(p: Policy) {
    !(p.allowed == [] && p.denied == [] && p.specs == [])
  }

  /** The first declared spec with that name, or the read-only default. */
  function DeclaredSpec(specs: seq<ToolSpec>, tool: string): (spec: ToolSpec)
    ensures spec.name == tool
  {
    if specs == [] then ReadOnlySpec(tool)
    else if specs[0].name == tool then specs[0]
    else DeclaredSpec(specs[1..], tool)
  }

  function SpecFor(p: Policy, tool: string): Option<ToolSpec> {
    if tool in p.denied || tool !in p.allowed then None else Some(DeclaredSpec(p.specs, tool))
  }

  predicate Usable(p: Policy, tool: string) {
    tool !in p.denied && SpecFor(p, tool).Some? && SpecFor(p, tool).value.readOnly
  }

  function KeepUsable(p: Policy, tools: seq<string>): seq<string> {
    if tools == [] then []
    else (if Usable(p, tools[0]) then [tools[0]] else []) + KeepUsable(p, tools[1..])
  }

  function EffectiveTools(p: Policy): seq<string> {
    KeepUsable(p, p.allowed)
  }

  function KeepRequested(tools: seq<string>, requested: seq<string>): seq<string> {
    if tools == [] then []
    else (if tools[0] in requested then [tools[0]] else []) + KeepRequested(tools[1..], requested)
  }

  function EffectiveToolsForRequest(p: Policy, requested: seq<string>): seq<string> {
    KeepRequested(EffectiveTools(p), requested)
  }

  function ValidateRequestedTools(p: Policy, requested: seq<string>): Result<(), ToolError> {
    if requested == [] then Ok(())
    else
      var spec := SpecFor(p, requested[0]);
      if spec.None? then Err(Unauthorized)
      else if !spec.value.readOnly then Err(NotReadOnly)
      else ValidateRequestedTools(p, requested[1..])
  }

  function ValidateToolCall(p: Policy, tool: string, requested: seq<string>): Result<ToolSpec, ToolError> {
    if tool !in requested then Err(OutsideScope)
    else
      var spec := SpecFor(p, tool);
      if spec.None? then Err(Unauthorized)
      else if !spec.value.readOnly then Err(NotReadOnly)
      else Ok(spec.value)
  }

  // ---------------------------------------------------------------- what the policy promises

  lemma {:induction false} KeepUsableMeans(p: Policy, tools: seq<string>, tool: string)
    ensures tool in KeepUsable(p, tools) <==> tool in tools && Usable(p, tool)
  {
    if tools != [] { KeepUsableMeans(p, tools[1..], tool); }
  }

  lemma {:induction false} KeepRequestedMeans(tools: seq<string>, requested: seq<string>, tool: string)
    ensures tool in KeepRequested(tools, requested) <==> tool in tools && tool in requested
  {
    if tools != [] { KeepRequestedMeans(tools[1..], requested, tool); }
  }

  /** A tool is in the effective set of a request iff the model may call it, and then the call gets
      a read-only spec of that name which the policy does not deny. */
  lemma EffectiveIffCallable(p: Policy, requested: seq<string>, tool: string)
    ensures tool in EffectiveToolsForRequest(p, requested) <==> ValidateToolCall(p, tool, requested).Ok?
    ensures ValidateToolCall(p, tool, requested).Ok? ==>
              var spec := ValidateToolCall(p, tool, requested).value;
              spec.name == tool && spec.readOnly && tool in p.allowed && tool !in p.denied && tool in requested
  {
    KeepUsableMeans(p, p.allowed, tool);
    KeepRequestedMeans(EffectiveTools(p), requested, tool);
  }

  lemma AllOfFirstAndRest(tools: seq<string>, first: string, rest: seq<string>)
    ensures (forall tool | tool in [first] + rest :: tool in tools) <==>
              first in tools && forall tool | tool in rest :: tool in tools
  {
    assert first in [first] + rest;
    assert forall tool | tool in rest :: tool in [first] + rest;
  }

  /** A request passes iff every tool it names is effective. */
  lemma {:induction false} RequestPassesIffEffective(p: Policy, requested: seq<string>)
    ensures ValidateRequestedTools(p, requested).Ok? <==> forall tool | tool in requested :: tool in EffectiveTools(p)
  {
    if requested != [] {
      var first, rest := requested[0], requested[1..];
      KeepUsableMeans(p, p.allowed, first);
      RequestPassesIffEffective(p, rest);
      AllOfFirstAndRest(EffectiveTools(p), first, rest);
      assert requested == [first] + rest;
    }
  }

  /** Narrowing a request by a policy yields a request that policy accepts. */
  lemma NarrowedRequestPasses(p: Policy, requested: seq<string>)
    ensures ValidateRequestedTools(p, EffectiveToolsForRequest(p, requested)).Ok?
  {
    var narrowed := EffectiveToolsForRequest(p, requested);
    forall tool | tool in narrowed ensures tool in EffectiveTools(p) {
      KeepRequestedMeans(EffectiveTools(p), requested, tool);
    }
    RequestPassesIffEffective(p, narrowed);
  }

  // ---------------------------------------------------------------- the policy's own lists

  /** The i-th spec is the first one declared for the tool. */
  predicate FirstSpec(specs: seq<ToolSpec>, tool: string, i: nat) {
    i < |specs| && specs[i].name == tool && forall j | 0 <= j < i :: specs[j].name != tool
  }

  /** The policy lists the tool as allowed and not as denied, and declares it read-only or not at all. */
  ghost predicate MayUse(p: Policy, tool: string) {
    && tool in p.allowed && tool !in p.denied
    && forall i: nat | FirstSpec(p.specs, tool, i) :: p.specs[i].readOnly
  }

  /** The spec of a tool is the first one declared for it, or the read-only default when there is none. */
  lemma {:induction false} DeclaredSpecMeans(specs: seq<ToolSpec>, tool: string)
    ensures (forall i | 0 <= i < |specs| :: specs[i].name != tool) ==>
              var anyObject := Obj([Field("type", Str("object"))]);
              DeclaredSpec(specs, tool) == ToolSpec(tool, true, true, anyObject, anyObject)
    ensures forall i: nat | FirstSpec(specs, tool, i) :: DeclaredSpec(specs, tool) == specs[i]
    ensures (exists i | 0 <= i < |specs| :: specs[i].name == tool) ==> exists i: nat :: FirstSpec(specs, tool, i)
  {
    if specs != [] {
      var rest := specs[1..];
      DeclaredSpecMeans(rest, tool);
      if specs[0].name == tool {
        assert FirstSpec(specs, tool, 0);
      } else {
        forall i: nat | FirstSpec(specs, tool, i) ensures DeclaredSpec(specs, tool) == specs[i] {
          assert FirstSpec(rest, tool, i - 1) by {
            forall j | 0 <= j < i - 1 ensures rest[j].name != tool { assert rest[j] == specs[j + 1]; }
          }
        }
        if i :| 0 <= i < |specs| && specs[i].name == tool {
          assert rest[i - 1].name == tool;
          var k: nat :| FirstSpec(rest, tool, k);
          assert FirstSpec(specs, tool, k + 1) by {
            forall j | 0 <= j < k + 1 ensures specs[j].name != tool { if j > 0 { assert specs[j] == rest[j - 1]; } }
          }
        }
      }
    }
  }

  lemma ReadOnlyMeans(p: Policy, tool: string)
    ensures DeclaredSpec(p.specs, tool).readOnly <==> forall i: nat | FirstSpec(p.specs, tool, i) :: p.specs[i].readOnly
  {
    DeclaredSpecMeans(p.specs, tool);
    if exists i | 0 <= i < |p.specs| :: p.specs[i].name == tool {
      var i: nat :| FirstSpec(p.specs, tool, i);
    }
  }

  /** A call is accepted iff its tool was requested and the policy's own lists let it be used; each of the
      three errors has its own case. */
  lemma CallableIff(p: Policy, tool: string, requested: seq<string>)
    ensures var r := ValidateToolCall(p, tool, requested);
            && (r.Ok? <==> tool in requested && MayUse(p, tool))
            && (r.Ok? ==> r.value == DeclaredSpec(p.specs, tool))
            && (r == Err(OutsideScope) <==> tool !in requested)
            && (r == Err(Unauthorized) <==> tool in requested && (tool !in p.allowed || tool in p.denied))
            && (r == Err(NotReadOnly) <==>
                  tool in requested && tool in p.allowed && tool !in p.denied && !MayUse(p, tool))
  {
    ReadOnlyMeans(p, tool);
  }

  /** A tool is effective for a request iff it was requested and the policy's own lists let it be used. */
  lemma EffectiveIffUsable(p: Policy, requested: seq<string>, tool: string)
    ensures tool in EffectiveToolsForRequest(p, requested) <==> tool in requested && MayUse(p, tool)
  {
    EffectiveIffCallable(p, requested, tool);
    CallableIff(p, tool, requested);
  }

  /** A request passes iff the policy's own lists let every tool of it be used. */
  lemma RequestPassesIffUsable(p: Policy, requested: seq<string>)
    ensures ValidateRequestedTools(p, requested).Ok? <==> forall tool | tool in requested :: MayUse(p, tool)
  {
    RequestPassesIffEffective(p, requested);
    forall tool ensures tool in EffectiveTools(p) <==> MayUse(p, tool) {
      KeepUsableMeans(p, p.allowed, tool);
      ReadOnlyMeans(p, tool);
    }
  }

  /** The indices of some tools, in order, and of all that may be used and were requested. */
  ghost predicate Picks(p: Policy, tools: seq<string>, requested: seq<string>, at: seq<nat>, picked: seq<string>) {
    && |at| == |picked| && (forall j, k | 0 <= j < k < |at| :: at[j] < at[k])
    && (forall k | 0 <= k < |at| :: at[k] < |tools| && tools[at[k]] == picked[k])
    && forall i | 0 <= i < |tools| :: i in at <==> Usable(p, tools[i]) && tools[i] in requested
  }

  lemma {:induction false} KeepRequestedSplits(a: seq<string>, b: seq<string>, requested: seq<string>)
    ensures KeepRequested(a + b, requested) == KeepRequested(a, requested) + KeepRequested(b, requested)
  {
    if a == [] {
      assert a + b == b;
    } else {
      assert (a + b)[1..] == a[1..] + b;
      KeepRequestedSplits(a[1..], b, requested);
    }
  }

  function Shifted(at: seq<nat>): seq<nat> {
    seq(|at|, k requires 0 <= k < |at| => at[k] + 1)
  }

  lemma ShiftedHas(at: seq<nat>, i: nat)
    ensures i in Shifted(at) <==> i > 0 && i - 1 in at
  {
    if i > 0 && i - 1 in at {
      var k :| 0 <= k < |at| && at[k] == i - 1;
      assert Shifted(at)[k] == i;
    }
  }

  lemma PassedOver(p: Policy, tools: seq<string>, requested: seq<string>, at: seq<nat>, picked: seq<string>)
    requires tools != [] && Picks(p, tools[1..], requested, at, picked)
    requires !(Usable(p, tools[0]) && tools[0] in requested)
    ensures Picks(p, tools, requested, Shifted(at), picked)
  {
    forall i | 0 <= i < |tools| ensures i in Shifted(at) <==> Usable(p, tools[i]) && tools[i] in requested {
      ShiftedHas(at, i);
      if i > 0 { assert tools[i] == tools[1..][i - 1]; }
    }
  }

  /** The first index, and then the shifted ones. */
  lemma FirstAndShifted(at: seq<nat>, k: nat)
    requires k <= |at|
    ensures ([0] + Shifted(at))[k] == if k == 0 then 0 else at[k - 1] + 1
  {
  }

  lemma IncreasingAfterFirst(at: seq<nat>)
    requires forall j, k | 0 <= j < k < |at| :: at[j] < at[k]
    ensures forall j, k | 0 <= j < k < |[0] + Shifted(at)| :: ([0] + Shifted(at))[j] < ([0] + Shifted(at))[k]
  {
    var longer := [0] + Shifted(at);
    forall j, k | 0 <= j < k < |longer| ensures longer[j] < longer[k] {
      FirstAndShifted(at, j);
      FirstAndShifted(at, k);
    }
  }

  lemma PickedFirst(p: Policy, tools: seq<string>, requested: seq<string>, at: seq<nat>, picked: seq<string>)
    requires tools != [] && Picks(p, tools[1..], requested, at, picked)
    requires Usable(p, tools[0]) && tools[0] in requested
    ensures Picks(p, tools, requested, [0] + Shifted(at), [tools[0]] + picked)
  {
    var longer, all := [0] + Shifted(at), [tools[0]] + picked;
    IncreasingAfterFirst(at);
    forall k | 0 <= k < |longer| ensures longer[k] < |tools| && tools[longer[k]] == all[k] {
      FirstAndShifted(at, k);
      if k > 0 { assert tools[longer[k]] == tools[1..][at[k - 1]] && all[k] == picked[k - 1]; }
    }
    forall i | 0 <= i < |tools| ensures i in longer <==> Usable(p, tools[i]) && tools[i] in requested {
      ShiftedHas(at, i);
      if i > 0 { assert tools[i] == tools[1..][i - 1]; }
    }
  }

  lemma {:induction false} KeptInOrder(p: Policy, tools: seq<string>, requested: seq<string>) returns (at: seq<nat>)
    ensures Picks(p, tools, requested, at, KeepRequested(KeepUsable(p, tools), requested))
  {
    at := [];
    if tools != [] {
      var rest := KeptInOrder(p, tools[1..], requested);
      var usable := KeepUsable(p, tools[1..]);
      var picked := KeepRequested(usable, requested);
      if Usable(p, tools[0]) {
        KeepRequestedSplits([tools[0]], usable, requested);
        assert KeepRequested([tools[0]], requested) == if tools[0] in requested then [tools[0]] else [];
      } else {
        assert [] + usable == usable;
      }
      if Usable(p, tools[0]) && tools[0] in requested {
        PickedFirst(p, tools, requested, rest, picked);
        at := [0] + Shifted(rest);
      } else {
        PassedOver(p, tools, requested, rest, picked);
        at := Shifted(rest);
      }
    }
  }

  /** The effective tools of a request are the allowed ones that may be used and were requested, each as often
      and in the order as they are allowed. */
  lemma EffectiveInOrder(p: Policy, requested: seq<string>) returns (at: seq<nat>)
    ensures Picks(p, p.allowed, requested, at, EffectiveToolsForRequest(p, requested))
    ensures forall i | 0 <= i < |p.allowed| :: i in at <==> MayUse(p, p.allowed[i]) && p.allowed[i] in requested
  {
    at := KeptInOrder(p, p.allowed, requested);
    forall tool ensures Usable(p, tool) && tool in p.allowed <==> MayUse(p, tool) { ReadOnlyMeans(p, tool); }
  }
}
