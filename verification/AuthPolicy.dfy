/** The default authorization policy: a cascade of conditions over the subject and the action. */
module AuthPolicy {
  import opened Wrappers
  import Text

  datatype Role = SystemAdmin | AgentAdmin | ResourceOwner | ResourceMaintainer | Operator | Viewer

  datatype Assignment = Assignment(role: Role, resourceType: Option<string>, resourceId: Option<string>)

  datatype Subject = Subject(
    userId: string, serviceId: string, serviceActions: seq<string>, roles: seq<Assignment>, allowlist: seq<string>)

  datatype Resource = Resource(raw: string, resourceType: string, resourceId: string)

  datatype Risk = LowRisk | MediumRisk | HighRisk | CriticalRisk

  datatype Mode = Deny | ReadOnly | NeedsApproval | Authorized

  datatype Context = Context(
    action: string, agentType: Option<string>, resource: Option<Resource>, risk: Risk, mode: Mode, observer: bool)

  datatype Decision = Denied(reason: string) | ApprovalRequired(reason: string) | Allowed

  const ADMIN_ACTIONS := [
    "admin:approve", "admin:deny", "admin:agent_pause", "admin:agent_resume", "admin:audit_read", "admin:observer_read",
    "admin:grant_create", "admin:run_read", "admin:run_retry", "admin:run_terminate", "admin:external_action_dry_run",
    "admin:external_action_apply", "admin:external_action_compensate"]
  const OBSERVER_DISCUSS := "admin:observer_discuss"
  const AGENT_REQUESTS := ["request:create_agent", "request:change_agent"]
  const OPEN_ACTIONS := ["run:create", "session:create", "session:append_message"]
  const OBSERVER_READS := ["admin:observer_read", "internal:observer_tick"]
  const BACKGROUND_WORKER := "background_worker"
  const OBSERVER := "observer_agent"
  const INTERNAL := "internal:"

  function TrimStars(s: string): string {
    if s != "" && s[|s| - 1] == '*' then TrimStars(s[..|s| - 1]) else s
  }

  predicate EntryAllows(allowed: string, action: string) {
    allowed == "*" || allowed == action || Text.StartsWith(action, TrimStars(allowed))
  }

  predicate ServiceAllows(a: Subject, action: string) {
    exists allowed | allowed in a.serviceActions :: EntryAllows(allowed, action)
  }

  predicate HasRole(a: Subject, role: Role) {
    exists r | r in a.roles :: r.role == role
  }

  predicate HasAnyRole(a: Subject, roles: seq<Role>) {
    exists role | role in roles :: HasRole(a, role)
  }

  predicate Covers(r: Assignment, resource: Resource) {
    && (r.resourceType.None? || r.resourceType.value == resource.resourceType)
    && (r.resourceId.None? || r.resourceId.value == resource.resourceId)
  }

  predicate CanAccess(a: Subject, resource: Resource) {
    || HasAnyRole(a, [SystemAdmin, AgentAdmin, ResourceOwner, ResourceMaintainer])
    || (exists allowed | allowed in a.allowlist :: allowed == "*" || allowed == resource.raw)
    || (exists r | r in a.roles :: Covers(r, resource))
  }

  /** The part of the decision that depends on the action's own rule. */
  function DecideAction(a: Subject, c: Context): Decision {
    if c.action in ADMIN_ACTIONS then
      if HasAnyRole(a, [SystemAdmin, AgentAdmin]) then Allowed else Denied("admin role required")
    else if c.action == OBSERVER_DISCUSS then
      if HasAnyRole(a, [SystemAdmin, AgentAdmin, Operator]) then Allowed else Denied("admin or operator role required")
    else if c.action in AGENT_REQUESTS then
      if c.agentType == Some(OBSERVER) && !HasRole(a, SystemAdmin) then
        Denied("observer_agent can only be requested by system_admin")
      else if HasAnyRole(a, [SystemAdmin, AgentAdmin, ResourceOwner, ResourceMaintainer]) then Allowed
      else ApprovalRequired("create or change agent requires resource owner approval")
    else if c.action in OPEN_ACTIONS then Allowed
    else if Text.StartsWith(c.action, INTERNAL) then
      if ServiceAllows(a, c.action) then Allowed else Denied("internal action requires service claim")
    else Denied("unknown action")
  }

  /** `DefaultPolicy::authorize`. */
  function Authorize(a: Subject, c: Context): Decision {
    Gate(a, c, DecideAction(a, c))
  }

  /** The conditions common to all actions; ruled is what the action's own rule says. */
  function Gate(a: Subject, c: Context, ruled: Decision): Decision {
    if !ServiceAllows(a, c.action) then Denied("service cannot perform the action")
    else if a.userId == "" || a.serviceId == "" then Denied("missing dual subject identity")
    else if c.observer && c.action !in OBSERVER_READS then Denied("observer_agent is read-only")
    else if c.resource.Some? && !CanAccess(a, c.resource.value) then Denied("resource is outside user allowlist")
    else if c.risk == CriticalRisk then Denied("critical risk")
    else if c.risk == HighRisk then ApprovalRequired("high risk action requires approval")
    else if c.mode == Authorized then Denied("authorized external actions are not allowed")
    else if c.mode == NeedsApproval then ApprovalRequired("external actions require resource owner approval")
    else if c.agentType.Some? && c.agentType.value != BACKGROUND_WORKER && c.agentType.value != OBSERVER then
        Denied("agent_type is not allowlisted")
    else ruled
  }

  // ---------------------------------------------------------------- service entries

  predicate IsStars(s: string) {
    forall i | 0 <= i < |s| :: s[i] == '*'
  }

  lemma {:induction false} TrimStarsMeans(s: string)
    ensures var r := TrimStars(s);
            && r <= s && IsStars(s[|r|..]) && (r != "" ==> r[|r| - 1] != '*')
  {
    if s != "" && s[|s| - 1] == '*' { TrimStarsMeans(s[..|s| - 1]); }
  }

  /** Every entry, with a star or without one, grants all actions that begin with its part before the
      trailing stars. */
  lemma EntryIsPrefixGrant(allowed: string, action: string)
    ensures EntryAllows(allowed, action) <==> TrimStars(allowed) <= action
  {
    TrimStarsMeans(allowed);
    if allowed == "*" { assert TrimStars(allowed) == TrimStars(""); }
  }

  /** An entry grants everything iff it is empty or stars only. */
  lemma GrantsEverythingIff(allowed: string)
    ensures (forall action :: EntryAllows(allowed, action)) <==> IsStars(allowed)
  {
    var prefix := TrimStars(allowed);
    TrimStarsMeans(allowed);
    assert allowed[0..] == allowed;
    if IsStars(allowed) {
      assert prefix == "";
      forall action ensures EntryAllows(allowed, action) { EntryIsPrefixGrant(allowed, action); }
    } else {
      EntryIsPrefixGrant(allowed, "");
    }
  }

  /** Entries without a star that allow another action than their own. */
  lemma StarlessEntriesGrantMore()
    ensures EntryAllows("admin:", "admin:external_action_apply")
    ensures EntryAllows("session:create", "session:create_child")
    ensures EntryAllows("", "admin:external_action_apply")
  {
    assert "admin:" <= "admin:external_action_apply" && "session:create" <= "session:create_child";
  }

  // ---------------------------------------------------------------- promises

  function Rank(d: Decision): nat {
    match d
    case Denied(_) => 0
    case ApprovalRequired(_) => 1
    case Allowed => 2
  }

  /** The same two identities, with at least the same roles, allowlist entries and service actions. */
  predicate AtLeast(more: Subject, less: Subject) {
    && more.userId == less.userId && more.serviceId == less.serviceId
    && (forall x | x in less.serviceActions :: x in more.serviceActions)
    && (forall x | x in less.roles :: x in more.roles)
    && (forall x | x in less.allowlist :: x in more.allowlist)
  }

  lemma RolesGrow(less: Subject, more: Subject, roles: seq<Role>)
    requires AtLeast(more, less)
    ensures HasAnyRole(less, roles) ==> HasAnyRole(more, roles)
  {
    if HasAnyRole(less, roles) {
      var role :| role in roles && HasRole(less, role);
      var r :| r in less.roles && r.role == role;
      assert HasRole(more, role);
    }
  }

  lemma ServiceGrows(less: Subject, more: Subject, action: string)
    requires AtLeast(more, less)
    ensures ServiceAllows(less, action) ==> ServiceAllows(more, action)
  {
  }

  lemma AccessGrows(less: Subject, more: Subject, resource: Resource)
    requires AtLeast(more, less)
    ensures CanAccess(less, resource) ==> CanAccess(more, resource)
  {
    RolesGrow(less, more, [SystemAdmin, AgentAdmin, ResourceOwner, ResourceMaintainer]);
  }

  /** More roles, allowlist entries or service actions never lower a decision. */
  lemma AuthorizeIsMonotone(less: Subject, more: Subject, c: Context)
    requires AtLeast(more, less)
    ensures Rank(Authorize(less, c)) <= Rank(Authorize(more, c))
  {
    ActionRuleIsMonotone(less, more, c);
    GateIsMonotone(less, more, c, DecideAction(less, c), DecideAction(more, c));
  }

  lemma GateIsMonotone(less: Subject, more: Subject, c: Context, low: Decision, high: Decision)
    requires AtLeast(more, less) && Rank(low) <= Rank(high)
    ensures Rank(Gate(less, c, low)) <= Rank(Gate(more, c, high))
  {
    ServiceGrows(less, more, c.action);
    if c.resource.Some? { AccessGrows(less, more, c.resource.value); }
  }

  lemma ActionRuleIsMonotone(less: Subject, more: Subject, c: Context)
    requires AtLeast(more, less)
    ensures Rank(DecideAction(less, c)) <= Rank(DecideAction(more, c))
  {
    ServiceGrows(less, more, c.action);
    RolesGrow(less, more, [SystemAdmin, AgentAdmin]);
    RolesGrow(less, more, [SystemAdmin, AgentAdmin, Operator]);
    RolesGrow(less, more, [SystemAdmin, AgentAdmin, ResourceOwner, ResourceMaintainer]);
  }

  /** One of the subject's assignments is of the role. */
  ghost predicate Is(a: Subject, role: Role) {
    exists i | 0 <= i < |a.roles| :: a.roles[i].role == role
  }

  /** Some entry of the service is a beginning of the action, followed by nothing but stars. */
  ghost predicate MayCall(a: Subject, action: string) {
    exists entry, start, stars ::
      entry in a.serviceActions && entry == start + stars && IsStars(stars) && start <= action
  }

  /** Some role of the subject is that of an owner, maintainer or administrator, or some assignment names the
      resource or leaves it open, or the allowlist names it or everything. */
  ghost predicate MayAccess(a: Subject, resource: Resource) {
    || Is(a, SystemAdmin) || Is(a, AgentAdmin) || Is(a, ResourceOwner) || Is(a, ResourceMaintainer)
    || "*" in a.allowlist || resource.raw in a.allowlist
    || exists r | r in a.roles ::
         && (r.resourceType == None || r.resourceType == Some(resource.resourceType))
         && (r.resourceId == None || r.resourceId == Some(resource.resourceId))
  }

  /** What the subject needs for the action itself, each kind of action by itself. */
  ghost predicate Entitled(a: Subject, c: Context) {
    || (c.action in ADMIN_ACTIONS && (Is(a, SystemAdmin) || Is(a, AgentAdmin)))
    || (c.action == OBSERVER_DISCUSS && (Is(a, SystemAdmin) || Is(a, AgentAdmin) || Is(a, Operator)))
    || (c.action in AGENT_REQUESTS
        && (Is(a, SystemAdmin)
            || (c.agentType != Some(OBSERVER)
                && (Is(a, AgentAdmin) || Is(a, ResourceOwner) || Is(a, ResourceMaintainer)))))
    || c.action in OPEN_ACTIONS
    || (INTERNAL <= c.action && MayCall(a, c.action))
  }

  lemma RoleMeans(a: Subject)
    ensures forall role :: HasRole(a, role) <==> Is(a, role)
  {
    forall role | Is(a, role) ensures HasRole(a, role) {
      var i :| 0 <= i < |a.roles| && a.roles[i].role == role;
      assert a.roles[i] in a.roles;
    }
  }

  lemma StarsAfter(entry: string, start: string, stars: string)
    requires entry == start + stars && IsStars(stars)
    ensures TrimStars(entry) <= start
  {
    TrimStarsMeans(entry);
    if |TrimStars(entry)| > |start| { assert false; }
    assert start == entry[..|start|];
  }

  lemma ServiceMeans(a: Subject, action: string)
    ensures ServiceAllows(a, action) <==> MayCall(a, action)
  {
    if ServiceAllows(a, action) {
      var entry :| entry in a.serviceActions && EntryAllows(entry, action);
      EntryIsPrefixGrant(entry, action);
      TrimStarsMeans(entry);
      assert entry == TrimStars(entry) + entry[|TrimStars(entry)|..];
    }
    if MayCall(a, action) {
      var entry, start, stars :|
        entry in a.serviceActions && entry == start + stars && IsStars(stars) && start <= action;
      StarsAfter(entry, start, stars);
      EntryIsPrefixGrant(entry, action);
    }
  }

  lemma AccessMeans(a: Subject, resource: Resource)
    ensures CanAccess(a, resource) <==> MayAccess(a, resource)
  {
    RoleMeans(a);
    AnyOfFour(a, SystemAdmin, AgentAdmin, ResourceOwner, ResourceMaintainer);
    if exists r | r in a.roles :: Covers(r, resource) {
      var r :| r in a.roles && Covers(r, resource);
      assert r.resourceType == None || r.resourceType == Some(resource.resourceType);
    }
  }

  lemma AnyRoleIs(a: Subject, first: Role, rest: seq<Role>)
    ensures HasAnyRole(a, [first] + rest) <==> HasRole(a, first) || HasAnyRole(a, rest)
  {
    assert forall role :: role in [first] + rest <==> role == first || role in rest;
  }

  lemma AnyOfTwo(a: Subject, x: Role, y: Role)
    ensures HasAnyRole(a, [x, y]) <==> HasRole(a, x) || HasRole(a, y)
  {
    AnyRoleIs(a, x, [y]);
    AnyRoleIs(a, y, []);
    assert [x, y] == [x] + [y] && [y] == [y] + [];
  }

  lemma AnyOfThree(a: Subject, x: Role, y: Role, z: Role)
    ensures HasAnyRole(a, [x, y, z]) <==> HasRole(a, x) || HasRole(a, y) || HasRole(a, z)
  {
    AnyOfTwo(a, y, z);
    AnyRoleIs(a, x, [y, z]);
    assert [x, y, z] == [x] + [y, z];
  }

  lemma AnyOfFour(a: Subject, x: Role, y: Role, z: Role, w: Role)
    ensures HasAnyRole(a, [x, y, z, w]) <==> HasRole(a, x) || HasRole(a, y) || HasRole(a, z) || HasRole(a, w)
  {
    AnyOfThree(a, y, z, w);
    AnyRoleIs(a, x, [y, z, w]);
    assert [x, y, z, w] == [x] + [y, z, w];
  }

  // The kinds of action do not overlap: they differ in their first letters or in their length.

  lemma AdminActionsAreApart(action: string)
    requires action in ADMIN_ACTIONS
    ensures |action| > 0 && action[0] == 'a' && |action| != |OBSERVER_DISCUSS|
  {
  }

  lemma AgentRequestsAreApart(action: string)
    requires action in AGENT_REQUESTS
    ensures |action| > 1 && action[0] == 'r' && action[1] == 'e'
  {
  }

  lemma OpenActionsAreApart(action: string)
    requires action in OPEN_ACTIONS
    ensures |action| > 1 && ((action[0] == 'r' && action[1] == 'u') || action[0] == 's')
  {
  }

  lemma InternalActionsAreApart(action: string)
    requires Text.StartsWith(action, INTERNAL)
    ensures |action| > 0 && action[0] == 'i'
  {
  }

  /** The action may be asked for, but the subject owns nothing it could be asked for with. */
  ghost predicate NeedsOwner(a: Subject, c: Context) {
    && c.action in AGENT_REQUESTS && c.agentType != Some(OBSERVER)
    && !Is(a, SystemAdmin) && !Is(a, AgentAdmin) && !Is(a, ResourceOwner) && !Is(a, ResourceMaintainer)
  }

  lemma RuleAllowsIffEntitled(a: Subject, c: Context)
    ensures DecideAction(a, c) == Allowed <==> Entitled(a, c)
    ensures DecideAction(a, c).ApprovalRequired? <==> NeedsOwner(a, c)
  {
    RoleMeans(a);
    ServiceMeans(a, c.action);
    if c.action in AGENT_REQUESTS { AgentRequestsAreApart(c.action); }
    if c.action in OPEN_ACTIONS { OpenActionsAreApart(c.action); }
    if Text.StartsWith(c.action, INTERNAL) { InternalActionsAreApart(c.action); }
    if c.action in ADMIN_ACTIONS {
      AdminActionsAreApart(c.action);
      AnyOfTwo(a, SystemAdmin, AgentAdmin);
    } else if c.action == OBSERVER_DISCUSS {
      AnyOfThree(a, SystemAdmin, AgentAdmin, Operator);
    } else if c.action in AGENT_REQUESTS {
      AnyOfFour(a, SystemAdmin, AgentAdmin, ResourceOwner, ResourceMaintainer);
    }
  }

  /** The service may perform the action, both identities are there, an observer only reads, the subject may
      access the resource, and the risk is not critical. */
  ghost predicate Admitted(a: Subject, c: Context) {
    && MayCall(a, c.action) && a.userId != "" && a.serviceId != ""
    && (c.observer ==> c.action in OBSERVER_READS)
    && (c.resource.Some? ==> MayAccess(a, c.resource.value))
    && c.risk != CriticalRisk
  }

  /** The risk is low enough, no external action is asked for, and the agent type is known. */
  ghost predicate Harmless(c: Context) {
    && (c.risk == LowRisk || c.risk == MediumRisk)
    && (c.mode == Deny || c.mode == ReadOnly)
    && (c.agentType.Some? ==> c.agentType.value == BACKGROUND_WORKER || c.agentType.value == OBSERVER)
  }

  lemma AdmittedMeans(a: Subject, c: Context)
    ensures Admitted(a, c) <==>
              && ServiceAllows(a, c.action) && a.userId != "" && a.serviceId != ""
              && (c.observer ==> c.action in OBSERVER_READS)
              && (c.resource.Some? ==> CanAccess(a, c.resource.value))
              && c.risk != CriticalRisk
  {
    ServiceMeans(a, c.action);
    if c.resource.Some? { AccessMeans(a, c.resource.value); }
  }

  /** An action is allowed exactly when the subject is admitted to it, it is harmless, and the subject is
      entitled to it. */
  lemma AllowedIff(a: Subject, c: Context)
    ensures Authorize(a, c) == Allowed <==> Admitted(a, c) && Harmless(c) && Entitled(a, c)
  {
    RuleAllowsIffEntitled(a, c);
    AdmittedMeans(a, c);
    GateMeans(a, c, DecideAction(a, c));
  }

  /** It waits for an approval exactly when the subject is admitted to it and the risk is high; or the risk is
      lower and an approval is asked for; or it is harmless and only an owner is missing. All else is denied. */
  lemma ApprovalIff(a: Subject, c: Context)
    ensures Authorize(a, c).ApprovalRequired? <==>
              && Admitted(a, c)
              && (c.risk == HighRisk || c.mode == NeedsApproval || (Harmless(c) && NeedsOwner(a, c)))
  {
    RuleAllowsIffEntitled(a, c);
    AdmittedMeans(a, c);
    GateMeans(a, c, DecideAction(a, c));
  }

  lemma GateMeans(a: Subject, c: Context, ruled: Decision)
    ensures var d := Gate(a, c, ruled);
            && (d == Allowed <==> Admitted(a, c) && Harmless(c) && ruled == Allowed)
            && (d.ApprovalRequired? <==>
                  && Admitted(a, c)
                  && (c.risk == HighRisk || c.mode == NeedsApproval || (Harmless(c) && ruled.ApprovalRequired?)))
  {
    AdmittedMeans(a, c);
  }
}
