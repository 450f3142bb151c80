/** When an action item's transition succeeds, why it fails, and what an observation leaves behind, told by
    the words of the request and the stored row. */
module ActionItemsMeaning {
  import opened Wrappers
  import opened ActionItems
  import Text

  // ---------------------------------------------------------------- words

  ghost function NameOf(action: Action): string {
    match action
    case StartReview => "start_review"
    case Link => "link"
    case Close => "close"
    case Reject => "reject"
    case Requeue => "requeue"
  }

  /** The action leads from one status to another, told by where it ends. */
  ghost predicate Leads(action: Action, from: Status, to: Status) {
    match to
    case Queued => action == Requeue && from != Queued
    case InReview => action == StartReview && from == Queued
    case Linked => action == Link && (from == Queued || from == InReview)
    case Closed => action == Close && from != Closed && from != Rejected
    case Rejected => action == Reject && (from == Queued || from == InReview)
  }

  lemma TargetMeans(action: Action, from: Status)
    ensures forall to :: Target(action, from) == Some(to) <==> Leads(action, from, to)
  {
  }

  lemma ParseMeans(s: string)
    ensures forall action :: ParseAction(s) == Some(action) <==> Text.Trim(s) == NameOf(action)
  {
  }

  /** r is the text without the white space around it, cut to so many characters, if that leaves anything. */
  ghost predicate Shortens(text: Option<string>, most: nat, r: Option<string>) {
    match text
    case None => r.None?
    case Some(s) =>
      && (r.None? <==> forall i | 0 <= i < |s| :: Text.IsWhitespace(s[i]))
      && (r.Some? ==>
            && r.value <= Text.Trim(s) && |r.value| <= most
            && (|r.value| < most ==> r.value == Text.Trim(s)))
  }

  lemma BoundedMeans(text: Option<string>, most: nat)
    ensures Shortens(text, most, Bounded(text, most))
  {
    if text.Some? { Text.BlankIffTrimmedAway(text.value); }
  }

  lemma ShortensOnce(text: Option<string>, most: nat, r: Option<string>)
    requires Shortens(text, most, r)
    ensures r == Bounded(text, most)
  {
    if text.Some? { Text.BlankIffTrimmedAway(text.value); }
    if r.Some? {
      var trimmed := Text.Trim(text.value);
      assert r.value == trimmed[..|r.value|] && trimmed == trimmed[..|trimmed|];
    }
  }

  ghost predicate IsKnownType(s: string) {
    || s == "rule_candidate" || s == "online_evidence_card_update_request" || s == "raw_evidence_candidate"
    || s == "governance_task" || s == "manual_review_note"
  }

  // ---------------------------------------------------------------- transitions

  /** The request's words and the stored row allow the action, with these link fields. */
  ghost predicate Allowed(s: Store, r: Request, a: Action, to: Status, linkedType: Option<string>,
      linkedId: Option<string>) {
    && !Text.IsBlank(r.actor) && !Text.IsBlank(r.reason)
    && Text.Trim(r.action) == NameOf(a)
    && r.item in s.items && Leads(a, s.items[r.item].status, to)
    && Shortens(r.linkedType, 96, linkedType) && Shortens(r.linkedId, 220, linkedId)
    && if a == Link then linkedType.Some? && linkedId.Some? && IsKnownType(Text.Trim(linkedType.value))
       else linkedType.None? && linkedId.None?
  }

  ghost function Trimmed(s: Option<string>): Option<string> {
    if s.None? then None else Some(Text.Trim(s.value))
  }

  lemma PlanIsAllowed(s: Store, r: Request, linkedType: Option<string>, linkedId: Option<string>)
    requires Shortens(r.linkedType, 96, linkedType) && Shortens(r.linkedId, 220, linkedId)
    requires PlanTransition(s, r).Ok?
    ensures var p := PlanTransition(s, r).value;
            && Allowed(s, r, p.action, p.to, linkedType, linkedId)
            && p.from == s.items[r.item].status && p.linkedType == Trimmed(linkedType) && p.linkedId == linkedId
  {
    ParseMeans(r.action);
    ShortensOnce(r.linkedType, 96, linkedType);
    ShortensOnce(r.linkedId, 220, linkedId);
    TargetMeans(PlanTransition(s, r).value.action, s.items[r.item].status);
  }

  lemma AllowedIsPlanned(s: Store, r: Request, a: Action, to: Status, linkedType: Option<string>,
      linkedId: Option<string>)
    requires Allowed(s, r, a, to, linkedType, linkedId)
    ensures PlanTransition(s, r) == Ok(Plan(a, s.items[r.item].status, to, Trimmed(linkedType), linkedId))
  {
    ParseMeans(r.action);
    ShortensOnce(r.linkedType, 96, linkedType);
    ShortensOnce(r.linkedId, 220, linkedId);
    TargetMeans(a, s.items[r.item].status);
  }

  /** The row after an allowed transition: its status and time, and after a link its link fields; all else
      stays. */
  ghost predicate MovedTo(s: Store, r: Request, a: Action, to: Status, linkedType: Option<string>,
      linkedId: Option<string>, s': Store)
    requires r.item in s.items
  {
    && s'.items.Keys == s.items.Keys
    && (forall other | other in s.items && other != r.item :: s'.items[other] == s.items[other])
    && var row, row' := s.items[r.item], s'.items[r.item];
    && row'.status == to && row'.updatedAt == r.now
    && (if a == Link then row'.linkedType == Trimmed(linkedType) && row'.linkedId == linkedId
        else row'.linkedType == row.linkedType && row'.linkedId == row.linkedId)
    && row'.route == row.route && row'.priority == row.priority
    && row'.traceId == row.traceId && row'.packageId == row.packageId
  }

  /** A request that is not allowed changes nothing and is given an error. One that is moves the row; it then
      succeeds, writing its one event, iff no event of the same item, action, target and time is there. */
  lemma TransitionMeans(s: Store, r: Request, a: Action, to: Status, linkedType: Option<string>,
      linkedId: Option<string>)
    requires Shortens(r.linkedType, 96, linkedType) && Shortens(r.linkedId, 220, linkedId)
    ensures var (result, s') := Transition(s, r);
            var event := EventId(r.item, Did(a), Some(to), r.now);
            if !Allowed(s, r, a, to, linkedType, linkedId) then
              (forall b, end :: !Allowed(s, r, b, end, linkedType, linkedId)) ==>
                result.Err? && result != Err(EventInsertFailed) && s' == s
            else
              && MovedTo(s, r, a, to, linkedType, linkedId, s')
              && if forall i | 0 <= i < |s.events| :: s.events[i].id != event
                 then result.Ok? && s'.events == s.events + [Event(event, Some(s.items[r.item].status), to)]
                 else result == Err(EventInsertFailed) && s'.events == s.events
  {
    if PlanTransition(s, r).Ok? { PlanIsAllowed(s, r, linkedType, linkedId); }
    if Allowed(s, r, a, to, linkedType, linkedId) { AllowedIsPlanned(s, r, a, to, linkedType, linkedId); }
  }

  /** A transition succeeds iff some action with some end is allowed and its event is new. */
  lemma SucceedsIff(s: Store, r: Request, linkedType: Option<string>, linkedId: Option<string>)
    requires Shortens(r.linkedType, 96, linkedType) && Shortens(r.linkedId, 220, linkedId)
    ensures Transition(s, r).0.Ok? <==>
              exists a, to ::
                && Allowed(s, r, a, to, linkedType, linkedId)
                && forall i | 0 <= i < |s.events| :: s.events[i].id != EventId(r.item, Did(a), Some(to), r.now)
  {
    if a, to :| Allowed(s, r, a, to, linkedType, linkedId) {
      TransitionMeans(s, r, a, to, linkedType, linkedId);
      forall b, end | Allowed(s, r, b, end, linkedType, linkedId) ensures b == a && end == to {
        AllowedIsPlanned(s, r, a, to, linkedType, linkedId);
        AllowedIsPlanned(s, r, b, end, linkedType, linkedId);
      }
    } else {
      TransitionMeans(s, r, Link, Linked, linkedType, linkedId);
    }
  }

  /** Why a request is refused, in the order in which it is looked at. */
  ghost predicate Refused(s: Store, r: Request, linkedType: Option<string>, linkedId: Option<string>, e: RequestError) {
    match e
    case ActorRequired => Text.IsBlank(r.actor)
    case ReasonRequired => !Text.IsBlank(r.actor) && Text.IsBlank(r.reason)
    case UnknownAction => Signed(r) && forall a :: Text.Trim(r.action) != NameOf(a)
    case ItemNotFound => Signed(r) && r.item !in s.items && exists a :: Text.Trim(r.action) == NameOf(a)
    case InvalidTransition =>
      && Signed(r) && r.item in s.items
      && exists a :: Text.Trim(r.action) == NameOf(a) && forall to :: !Leads(a, s.items[r.item].status, to)
    case UnknownLinkedType => Possible(s, r) && linkedType.Some? && !IsKnownType(Text.Trim(linkedType.value))
    case LinkRequired =>
      && Possible(s, r) && (linkedType.None? || (IsKnownType(Text.Trim(linkedType.value)) && linkedId.None?))
      && Text.Trim(r.action) == "link"
    case LinkNotSupported =>
      && Possible(s, r) && (linkedType.Some? ==> IsKnownType(Text.Trim(linkedType.value)))
      && (linkedType.Some? || linkedId.Some?) && Text.Trim(r.action) != "link"
    case EventInsertFailed => false
  }

  ghost predicate Signed(r: Request) {
    !Text.IsBlank(r.actor) && !Text.IsBlank(r.reason)
  }

  /** The action leads somewhere from the row's status. */
  ghost predicate Possible(s: Store, r: Request) {
    && Signed(r) && r.item in s.items
    && exists a, to :: Text.Trim(r.action) == NameOf(a) && Leads(a, s.items[r.item].status, to)
  }

  lemma PossibleMeans(s: Store, r: Request)
    requires r.item in s.items
    ensures var action := ParseAction(r.action);
            Possible(s, r) <==> Signed(r) && action.Some? && Target(action.value, s.items[r.item].status).Some?
  {
    ParseMeans(r.action);
    if ParseAction(r.action).Some? { TargetMeans(ParseAction(r.action).value, s.items[r.item].status); }
    if Possible(s, r) {
      var a, to :| Text.Trim(r.action) == NameOf(a) && Leads(a, s.items[r.item].status, to);
      TargetMeans(a, s.items[r.item].status);
    }
  }

  lemma EarlyRefusal(s: Store, r: Request, linkedType: Option<string>, linkedId: Option<string>, e: RequestError)
    requires e.ActorRequired? || e.ReasonRequired? || e.UnknownAction? || e.ItemNotFound? || e.InvalidTransition?
    ensures PlanTransition(s, r) == Err(e) <==> Refused(s, r, linkedType, linkedId, e)
  {
    ParseMeans(r.action);
    var action := ParseAction(r.action);
    if r.item in s.items && action.Some? { TargetMeans(action.value, s.items[r.item].status); }
    if action.Some? { assert Text.Trim(r.action) == NameOf(action.value); }
  }

  lemma KnownMeans(s: string)
    ensures KnownLinkedType(s) <==> IsKnownType(s)
  {
  }

  lemma TypeRefusal(s: Store, r: Request, linkedType: Option<string>, linkedId: Option<string>)
    requires linkedType == Bounded(r.linkedType, 96) && linkedId == Bounded(r.linkedId, 220)
    ensures PlanTransition(s, r) == Err(UnknownLinkedType) <==> Refused(s, r, linkedType, linkedId, UnknownLinkedType)
  {
    if r.item in s.items { PossibleMeans(s, r); }
    if linkedType.Some? { KnownMeans(Text.Trim(linkedType.value)); }
  }

  lemma LinkRefusal(s: Store, r: Request, linkedType: Option<string>, linkedId: Option<string>, e: RequestError)
    requires linkedType == Bounded(r.linkedType, 96) && linkedId == Bounded(r.linkedId, 220)
    requires e.LinkRequired? || e.LinkNotSupported?
    ensures PlanTransition(s, r) == Err(e) <==> Refused(s, r, linkedType, linkedId, e)
  {
    if r.item in s.items { PossibleMeans(s, r); }
    LinkIsNamed(r.action);
    if linkedType.Some? { KnownMeans(Text.Trim(linkedType.value)); }
  }

  lemma LinkIsNamed(s: string)
    ensures ParseAction(s) == Some(Link) <==> Text.Trim(s) == "link"
  {
    ParseMeans(s);
  }

  /** Each refusal before the row is written has its own case. */
  lemma RefusedIff(s: Store, r: Request, linkedType: Option<string>, linkedId: Option<string>, e: RequestError)
    requires Shortens(r.linkedType, 96, linkedType) && Shortens(r.linkedId, 220, linkedId) && !e.EventInsertFailed?
    ensures Transition(s, r).0 == Err(e) <==> Refused(s, r, linkedType, linkedId, e)
  {
    ShortensOnce(r.linkedType, 96, linkedType);
    ShortensOnce(r.linkedId, 220, linkedId);
    if e.UnknownLinkedType? {
      TypeRefusal(s, r, linkedType, linkedId);
    } else if e.LinkRequired? || e.LinkNotSupported? {
      LinkRefusal(s, r, linkedType, linkedId, e);
    } else {
      EarlyRefusal(s, r, linkedType, linkedId, e);
    }
  }

  // ---------------------------------------------------------------- observations

  /** Some tag has some of the parts in it. */
  ghost predicate Tagged(tags: seq<string>, parts: seq<string>) {
    exists tag, part, before, after :: tag in tags && part in parts && tag == before + part + after
  }

  /** What calls for a route, apart from the others: the suggested owner or the tags. */
  ghost predicate CallsFor(route: Route, tags: seq<string>, owner: Option<string>) {
    match route
    case ContextRuleCandidate =>
      || owner == Some("rule_governance") || owner == Some("question_resolution")
      || Tagged(tags, ["rule_candidate", "question_frame", "followup_resolution", "multi_turn"])
    case EvidenceCardOrRetrieval =>
      owner == Some("retrieval_policy") || Tagged(tags, ["evidence", "negative_case", "retrieval", "package"])
    case AnswerRuleOrRenderer =>
      || owner == Some("answer_renderer")
      || Tagged(tags, ["internal_metadata", "forbidden_term", "visible_internal_error"])
    case RuntimeContract =>
      || owner == Some("runtime_trace_contract")
      || Tagged(tags, ["runtime_check", "reviewer", "http_error", "request_error"])
    case ManualReview => true
  }

  ghost function Rank(route: Route): nat {
    match route
    case ContextRuleCandidate => 0
    case EvidenceCardOrRetrieval => 1
    case AnswerRuleOrRenderer => 2
    case RuntimeContract => 3
    case ManualReview => 4
  }

  lemma ContainsMeans(tag: string, part: string)
    ensures Text.Contains(tag, part) <==> exists before, after :: tag == before + part + after
  {
    if Text.Contains(tag, part) {
      var i :| 0 <= i <= |tag| && part <= tag[i..];
      assert tag == tag[..i] + part + tag[i..][|part|..];
    }
    if before, after :| tag == before + part + after {
      assert tag[|before|..] == part + after;
    }
  }

  lemma TaggedMeans(tags: seq<string>, parts: seq<string>)
    ensures AnyTagContains(tags, parts) <==> Tagged(tags, parts)
  {
    if AnyTagContains(tags, parts) {
      var tag, part :| tag in tags && part in parts && Text.Contains(tag, part);
      ContainsMeans(tag, part);
    }
    if Tagged(tags, parts) {
      var tag, part, before, after :| tag in tags && part in parts && tag == before + part + after;
      ContainsMeans(tag, part);
    }
  }

  /** An observation takes the first route in rank that it calls for. */
  lemma RouteMeans(tags: seq<string>, owner: Option<string>)
    ensures var route := ClassifyRoute(tags, owner);
            CallsFor(route, tags, owner) && forall other | Rank(other) < Rank(route) :: !CallsFor(other, tags, owner)
  {
    TaggedMeans(tags, ["rule_candidate", "question_frame", "followup_resolution", "multi_turn"]);
    TaggedMeans(tags, ["evidence", "negative_case", "retrieval", "package"]);
    TaggedMeans(tags, ["internal_metadata", "forbidden_term", "visible_internal_error"]);
    TaggedMeans(tags, ["runtime_check", "reviewer", "http_error", "request_error"]);
  }

  ghost predicate Settled(status: Status) {
    status == Closed || status == Rejected
  }

  ghost predicate RowMeans(before: Option<Item>, o: Observation, row: Item) {
    && (row.status == if before.None? || Settled(before.value.status) then Queued else before.value.status)
    && row.route == ClassifyRoute(o.tags, o.owner) && row.updatedAt == o.now
    && (row.priority == if o.severity == "high" then "p1" else if o.severity == "medium" then "p2" else "p3")
    && Shortens(o.traceId, 120, row.traceId) && Shortens(o.packageId, 120, row.packageId)
    && (if before.None? then row.linkedType.None? && row.linkedId.None?
        else row.linkedType == before.value.linkedType && row.linkedId == before.value.linkedId)
  }

  /** The event of a new row, or of a settled one that is queued again. */
  ghost predicate EventMeans(s: Store, o: Observation, s': Store) {
    var id := ItemOf(o);
    var from := if id in s.items then Some(s.items[id].status) else None;
    var event := EventId(id, if from.None? then QueuedWord else RequeuedByObservation, from, o.now);
    if (from.None? || Settled(from.value)) && forall i | 0 <= i < |s.events| :: s.events[i].id != event
    then s'.events == s.events + [Event(event, from, Queued)] else s'.events == s.events
  }

  lemma RowIsMeant(s: Store, o: Observation)
    ensures RowMeans(if ItemOf(o) in s.items then Some(s.items[ItemOf(o)]) else None, o, UpsertedItem(s, o))
  {
    BoundedMeans(o.traceId, 120);
    BoundedMeans(o.packageId, 120);
  }

  lemma EventIsMeant(s: Store, o: Observation)
    ensures EventMeans(s, o, Upsert(s, o))
  {
  }

  /** Each route has an action type of its own, so items of different routes are different. */
  lemma TypesDiffer(a: Route, b: Route)
    ensures ActionTypeFor(a) == ActionTypeFor(b) <==> a == b
  {
    LengthOfType(a);
    LengthOfType(b);
  }

  lemma LengthOfType(route: Route)
    ensures |ActionTypeFor(route)| ==
            match route
            case ContextRuleCandidate => 33
            case EvidenceCardOrRetrieval => 37
            case AnswerRuleOrRenderer => 34
            case RuntimeContract => 27
            case ManualReview => 21
  {
  }

  /** What an observation leaves: its row is new or keeps its links, is queued if it was new or settled, and
      has the observation's route, priority and references; other rows and all events stay, and one event is
      added iff the row was new or settled and no event has its id. */
  lemma ObservationMeans(s: Store, o: Observation)
    ensures var s', id := Upsert(s, o), ItemOf(o);
            && id.observation == o.id && s'.items.Keys == s.items.Keys + {id}
            && (forall other | other in s.items && other != id :: s'.items[other] == s.items[other])
            && RowMeans(if id in s.items then Some(s.items[id]) else None, o, s'.items[id])
            && EventMeans(s, o, s')
  {
    RowIsMeant(s, o);
    EventIsMeant(s, o);
    assert Upsert(s, o).items == s.items[ItemOf(o) := UpsertedItem(s, o)];
  }
}
