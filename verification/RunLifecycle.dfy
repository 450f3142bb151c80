/** The transition tables of agent runs and agent requests, and what they force on whole traces. */
module RunLifecycle {

  datatype RunStatus =
    | Queued | Claimed | ContextBuilt | PolicyChecked | AwaitingApproval | Executing | Validating
    | ApplyingExternalActions | Completed | Failed | TimedOut | DeadLetter | Cancelled

  /** `validate_run_transition`. */
  predicate RunStep(from: RunStatus, to: RunStatus) {
    match from
    case Queued => to.Claimed? || to.Cancelled? || to.TimedOut?
    case Claimed => to.ContextBuilt? || to.Failed? || to.TimedOut?
    case ContextBuilt => to.PolicyChecked? || to.Failed? || to.TimedOut?
    case PolicyChecked => to.Executing? || to.AwaitingApproval? || to.Failed? || to.TimedOut?
    case Executing => to.Validating? || to.Failed? || to.TimedOut?
    case Validating => to.ApplyingExternalActions? || to.Completed? || to.Failed? || to.TimedOut?
    case ApplyingExternalActions => to.Completed? || to.Failed? || to.TimedOut?
    case AwaitingApproval => to.PolicyChecked? || to.Cancelled? || to.Failed?
    case Failed => to.Queued? || to.DeadLetter?
    case TimedOut => to.Queued? || to.DeadLetter?
    case DeadLetter => to.Queued? || to.Cancelled?
    case Completed => false
    case Cancelled => false
  }

  /** Between its claim and its end, and not waiting for approval. */
  ghost predicate Working(s: RunStatus) {
    s in {Claimed, ContextBuilt, PolicyChecked, Executing, Validating, ApplyingExternalActions}
  }

  /** The table read backwards, from where a step ends: the way forward has one predecessor a status, but for
      the return from approval and the two ways to complete; whatever is working can fail or time out. */
  lemma RunStepByTarget(from: RunStatus, to: RunStatus)
    ensures RunStep(from, to) <==>
              match to
              case Queued => from in {Failed, TimedOut, DeadLetter}
              case Claimed => from == Queued
              case ContextBuilt => from == Claimed
              case PolicyChecked => from in {ContextBuilt, AwaitingApproval}
              case AwaitingApproval => from == PolicyChecked
              case Executing => from == PolicyChecked
              case Validating => from == Executing
              case ApplyingExternalActions => from == Validating
              case Completed => from in {Validating, ApplyingExternalActions}
              case Failed => Working(from) || from == AwaitingApproval
              case TimedOut => Working(from) || from == Queued
              case DeadLetter => from in {Failed, TimedOut}
              case Cancelled => from in {Queued, AwaitingApproval, DeadLetter}
  {
  }

  /** A run comes to rest in Completed and Cancelled, and nowhere else. */
  lemma RestsIff(s: RunStatus)
    ensures (forall next :: !RunStep(s, next)) <==> s == Completed || s == Cancelled
  {
    assert RunStep(s, Failed) || RunStep(s, DeadLetter) || RunStep(s, Cancelled) || s == Completed || s == Cancelled;
  }

  /** A legal trace of a run from Queued. */
  predicate RunTrace(trace: seq<RunStatus>) {
    && trace != [] && trace[0] == Queued
    && forall i, j | 0 <= i && j == i + 1 < |trace| :: RunStep(trace[i], trace[j])
  }

  function Requeues(trace: seq<RunStatus>): nat {
    if |trace| < 2 then 0
    else Requeues(trace[..|trace| - 1]) + if trace[|trace| - 1] == Queued then 1 else 0
  }

  function ApprovalReturns(trace: seq<RunStatus>): nat {
    if |trace| < 2 then 0
    else ApprovalReturns(trace[..|trace| - 1])
         + if trace[|trace| - 2] == AwaitingApproval && trace[|trace| - 1] == PolicyChecked then 1 else 0
  }

  /** The longest way from a status to an end without a requeue or a return from approval. */
  function Height(s: RunStatus): nat {
    match s
    case Queued => 9
    case Claimed => 8
    case ContextBuilt => 7
    case PolicyChecked => 6
    case Executing => 5
    case AwaitingApproval => 5
    case Validating => 4
    case ApplyingExternalActions => 3
    case Failed => 2
    case TimedOut => 2
    case DeadLetter => 1
    case Completed => 0
    case Cancelled => 0
  }

  lemma {:induction false} TraceBudget(trace: seq<RunStatus>)
    requires RunTrace(trace)
    ensures |trace| - 1 + Height(trace[|trace| - 1]) <= 9 * (Requeues(trace) + 1) + 2 * ApprovalReturns(trace)
  {
    if |trace| > 1 { TraceBudget(trace[..|trace| - 1]); }
  }

  /** A run with r requeues and a returns from approval makes at most 9 * (r + 1) + 2 * a transitions. */
  lemma RunsAreBounded(trace: seq<RunStatus>)
    requires RunTrace(trace)
    ensures |trace| - 1 <= 9 * (Requeues(trace) + 1) + 2 * ApprovalReturns(trace)
  {
    TraceBudget(trace);
  }

  lemma Extend(trace: seq<RunStatus>, next: RunStatus)
    requires RunTrace(trace) && RunStep(trace[|trace| - 1], next)
    ensures RunTrace(trace + [next])
    ensures Requeues(trace + [next]) == Requeues(trace) + if next == Queued then 1 else 0
    ensures ApprovalReturns(trace + [next]) ==
            ApprovalReturns(trace) + if trace[|trace| - 1] == AwaitingApproval && next == PolicyChecked then 1 else 0
  {
    assert (trace + [next])[..|trace|] == trace;
  }

  lemma Detour(trace: seq<RunStatus>) returns (longer: seq<RunStatus>)
    requires RunTrace(trace) && trace[|trace| - 1] == PolicyChecked
    ensures RunTrace(longer) && longer[|longer| - 1] == PolicyChecked && |longer| == |trace| + 2
    ensures Requeues(longer) == Requeues(trace) && ApprovalReturns(longer) == ApprovalReturns(trace) + 1
  {
    var waiting := trace + [AwaitingApproval];
    Extend(trace, AwaitingApproval);
    Extend(waiting, PolicyChecked);
    longer := waiting + [PolicyChecked];
  }

  /** Waits for approval and returns, n times. */
  lemma {:induction false} DetourTrace(trace: seq<RunStatus>, n: nat) returns (longer: seq<RunStatus>)
    requires RunTrace(trace) && trace[|trace| - 1] == PolicyChecked
    ensures RunTrace(longer) && longer[|longer| - 1] == PolicyChecked && |longer| == |trace| + 2 * n
    ensures Requeues(longer) == Requeues(trace) && ApprovalReturns(longer) == ApprovalReturns(trace) + n
    decreases n
  {
    longer := trace;
    if n > 0 {
      var once := Detour(trace);
      longer := DetourTrace(once, n - 1);
    }
  }

  function Tail(): seq<RunStatus> {
    [Executing, Validating, ApplyingExternalActions, Failed, DeadLetter]
  }

  lemma {:induction false} Follow(trace: seq<RunStatus>, steps: seq<RunStatus>) returns (longer: seq<RunStatus>)
    requires RunTrace(trace)
    requires steps != [] ==> RunStep(trace[|trace| - 1], steps[0])
    requires forall i, j | 0 <= i && j == i + 1 < |steps| :: RunStep(steps[i], steps[j])
    requires forall i | 0 <= i < |steps| :: !steps[i].Queued? && !steps[i].AwaitingApproval?
    requires trace[|trace| - 1] != AwaitingApproval
    ensures longer == trace + steps && RunTrace(longer)
    ensures Requeues(longer) == Requeues(trace) && ApprovalReturns(longer) == ApprovalReturns(trace)
    decreases |steps|
  {
    longer := trace;
    if steps != [] {
      Extend(trace, steps[0]);
      longer := Follow(trace + [steps[0]], steps[1..]);
      assert trace + steps == trace + [steps[0]] + steps[1..];
    } else {
      assert trace + steps == trace;
    }
  }

  /** Up to a dead letter after r requeues, all a returns taken in the last round. */
  lemma {:induction false} LongTrace(r: nat, a: nat) returns (trace: seq<RunStatus>)
    ensures RunTrace(trace) && trace[|trace| - 1] == DeadLetter
    ensures Requeues(trace) == r && ApprovalReturns(trace) == a && |trace| == 9 * (r + 1) + 2 * a
    decreases r
  {
    var start := [Queued];
    if r > 0 {
      start := LongTrace(r - 1, 0);
      Extend(start, Queued);
      start := start + [Queued];
    }
    var checked := Follow(start, [Claimed, ContextBuilt, PolicyChecked]);
    var detoured := DetourTrace(checked, a);
    trace := Follow(detoured, Tail());
  }

  /** The bound is attained for every number of requeues and returns. */
  lemma BoundIsAttained(r: nat, a: nat) returns (trace: seq<RunStatus>)
    ensures RunTrace(trace) && Requeues(trace) == r && ApprovalReturns(trace) == a
    ensures |trace| - 1 == 9 * (r + 1) + 2 * a
  {
    trace := LongTrace(r, a);
    Extend(trace, Cancelled);
    trace := trace + [Cancelled];
  }

  // ---------------------------------------------------------------- the way to completion

  /** How many of the five milestones a run in this status has behind it in its current round. */
  function Milestones(s: RunStatus): nat {
    match s
    case Claimed => 1
    case ContextBuilt => 2
    case PolicyChecked => 3
    case AwaitingApproval => 3
    case Executing => 4
    case Validating => 5
    case ApplyingExternalActions => 5
    case Completed => 5
    case _ => 0
  }

  function Milestone(k: nat): RunStatus
    requires 1 <= k <= 5
  {
    if k == 1 then Claimed else if k == 2 then ContextBuilt else if k == 3 then PolicyChecked else if k == 4 then
        Executing else Validating
  }

  /** Positions of the last Queued and, after it and in order, of the first `n` milestones. */
  ghost predicate Visited(trace: seq<RunStatus>, at: seq<nat>, n: nat) {
    && |at| == n + 1 <= 6
    && (forall k | 0 <= k <= n :: at[k] < |trace|)
    && (forall j, k | 0 <= j < k <= n :: at[j] < at[k])
    && trace[at[0]] == Queued && (forall i | at[0] < i < |trace| :: trace[i] != Queued)
    && forall k | 1 <= k <= n :: trace[at[k]] == Milestone(k)
  }

  lemma {:induction false} MilestonesVisited(trace: seq<RunStatus>) returns (at: seq<nat>)
    requires RunTrace(trace)
    ensures Visited(trace, at, Milestones(trace[|trace| - 1]))
  {
    var n := |trace| - 1;
    if n == 0 {
      at := [0];
    } else if trace[n] == Queued {
      at := [n];
    } else {
      var before := MilestonesVisited(trace[..n]);
      at := NextMilestone(trace[..n], before, trace[n]);
      assert trace == trace[..n] + [trace[n]];
    }
  }

  lemma NextMilestone(trace: seq<RunStatus>, before: seq<nat>, next: RunStatus) returns (at: seq<nat>)
    requires RunTrace(trace) && RunStep(trace[|trace| - 1], next) && next != Queued
    requires Visited(trace, before, Milestones(trace[|trace| - 1]))
    ensures Visited(trace + [next], at, Milestones(next))
  {
    var had, has := Milestones(trace[|trace| - 1]), Milestones(next);
    if has > had {
      assert has == had + 1 && next == Milestone(has);
      at := before + [|trace|];
    } else {
      at := before[..has + 1];
    }
  }

  /** A run that ends Completed has, since its last Queued, been Claimed, ContextBuilt, PolicyChecked,
      Executing and Validating, in that order. */
  lemma CompletionVisitsEverything(trace: seq<RunStatus>) returns (at: seq<nat>)
    requires RunTrace(trace) && trace[|trace| - 1] == Completed
    ensures Visited(trace, at, 5)
  {
    at := MilestonesVisited(trace);
  }

  // ---------------------------------------------------------------- requests

  datatype RequestStatus =
    | Requested | Parsed | Checked | ApprovalRequired | Approved | Provisioning | Enqueued
    | Fulfilled | Denied | RequestCancelled | Expired | RequestFailed

  /** `validate_request_transition`. */
  predicate RequestStep(from: RequestStatus, to: RequestStatus) {
    || (from == Requested && to == Parsed)
    || (from == Parsed && to == Checked)
    || (from == Checked && to in {Denied, ApprovalRequired, Approved})
    || (from == Approved && to in {Provisioning, Enqueued})
    || (from == Provisioning && to == Fulfilled)
    || (from == Enqueued && to == Fulfilled)
    || (from == ApprovalRequired && to in {Approved, Denied, RequestCancelled, Expired})
    || (from in {Requested, Parsed, Checked, Approved, Provisioning, Enqueued}
        && to in {RequestCancelled, Expired, RequestFailed})
  }

  /** The table read backwards. */
  lemma RequestStepByTarget(from: RequestStatus, to: RequestStatus)
    ensures RequestStep(from, to) <==>
              match to
              case Requested => false
              case Parsed => from == Requested
              case Checked => from == Parsed
              case ApprovalRequired => from == Checked
              case Approved => from == Checked || from == ApprovalRequired
              case Provisioning => from == Approved
              case Enqueued => from == Approved
              case Fulfilled => from == Provisioning || from == Enqueued
              case Denied => from == Checked || from == ApprovalRequired
              case RequestCancelled => Open(from)
              case Expired => Open(from)
              case RequestFailed => Open(from) && from != ApprovalRequired
  {
  }

  /** The request has not ended. */
  ghost predicate Open(s: RequestStatus) {
    s != Fulfilled && s != Denied && s != RequestCancelled && s != Expired && s != RequestFailed
  }

  /** A request comes to rest exactly in the five statuses that end it. */
  lemma RequestRestsIff(s: RequestStatus)
    ensures (forall next :: !RequestStep(s, next)) <==> !Open(s)
  {
    assert Open(s) ==> RequestStep(s, RequestCancelled);
  }

  predicate RequestTrace(trace: seq<RequestStatus>) {
    && trace != [] && trace[0] == Requested
    && forall i, j | 0 <= i && j == i + 1 < |trace| :: RequestStep(trace[i], trace[j])
  }

  function Depth(s: RequestStatus): nat {
    match s
    case Requested => 0
    case Parsed => 1
    case Checked => 2
    case ApprovalRequired => 3
    case Approved => 4
    case Provisioning => 5
    case Enqueued => 5
    case _ => 6
  }

  lemma {:induction false} DepthGrows(trace: seq<RequestStatus>, i: nat, j: nat)
    requires RequestTrace(trace) && i < j < |trace|
    ensures Depth(trace[i]) + (j - i) <= Depth(trace[j])
    decreases j
  {
    if i < j - 1 { DepthGrows(trace, i, j - 1); }
    assert RequestStep(trace[j - 1], trace[j]);
  }

  /** A request never returns to a status it has left, and takes at most six transitions. */
  lemma RequestsAreAcyclic(trace: seq<RequestStatus>)
    requires RequestTrace(trace)
    ensures forall i, j | 0 <= i < j < |trace| :: trace[i] != trace[j]
    ensures |trace| <= 7
  {
    forall i, j | 0 <= i < j < |trace| ensures trace[i] != trace[j] { DepthGrows(trace, i, j); }
    if |trace| > 1 { DepthGrows(trace, 0, |trace| - 1); }
  }

  /** A fulfilled request was approved on the way. */
  lemma FulfilledWasApproved(trace: seq<RequestStatus>)
    requires RequestTrace(trace) && Fulfilled in trace
    ensures Approved in trace
  {
    var i :| 0 <= i < |trace| && trace[i] == Fulfilled;
    assert RequestStep(trace[i - 1], trace[i]);
    assert RequestStep(trace[i - 2], trace[i - 1]);
    assert trace[i - 2] == Approved;
  }
}
