/** Answer-quality action items and their event log. The two tables are a map and a sequence; each
    statement commits on its own, so an update stays when the event insert after it fails. */
module ActionItems {
  import opened Wrappers
  import Text

  datatype Status = Queued | InReview | Linked | Closed | Rejected

  datatype Action = StartReview | Link | Close | Reject | Requeue

  datatype Route = ContextRuleCandidate | EvidenceCardOrRetrieval | AnswerRuleOrRenderer | RuntimeContract
      | ManualReview

  /** The item id is a digest of observation and action type, the event id one of item, word, status
      and time. Digests are taken to be injective, so the ids are the digested data. */
  datatype ItemId = ItemId(observation: string, actionType: string)

  datatype Word = QueuedWord | RequeuedByObservation | Did(action: Action)

  datatype EventId = EventId(item: ItemId, word: Word, status: Option<Status>, now: nat)

  datatype Event = Event(id: EventId, from: Option<Status>, to: Status)

  datatype Item = Item(
    route: Route, status: Status, priority: string, traceId: Option<string>, packageId: Option<string>,
    linkedType: Option<string>, linkedId: Option<string>, updatedAt: nat)

  datatype Store = Store(items: map<ItemId, Item>, events: seq<Event>)

  // ---------------------------------------------------------------- routing

  predicate AnyTagContains(tags: seq<string>, parts: seq<string>) {
    exists tag, part | tag in tags && part in parts :: Text.Contains(tag, part)
  }

  /** `classify_action_route`. */
  function ClassifyRoute(tags: seq<string>, owner: Option<string>): Route {
    var who := if owner.Some? then owner.value else "";
    if who == "rule_governance" || who == "question_resolution"
       || AnyTagContains(tags, ["rule_candidate", "question_frame", "followup_resolution", "multi_turn"])
    then ContextRuleCandidate
    else if who == "retrieval_policy" || AnyTagContains(tags, ["evidence", "negative_case", "retrieval", "package"])
    then EvidenceCardOrRetrieval
    else if who == "answer_renderer"
            || AnyTagContains(tags, ["internal_metadata", "forbidden_term", "visible_internal_error"])
    then AnswerRuleOrRenderer
    else if who == "runtime_trace_contract"
            || AnyTagContains(tags, ["runtime_check", "reviewer", "http_error", "request_error"])
    then RuntimeContract
    else ManualReview
  }

  /** `action_type_for_route`. */
  function ActionTypeFor(route: Route): string {
    match route
    case ContextRuleCandidate => "review_context_rule_candidate_gap"
    case EvidenceCardOrRetrieval => "review_evidence_card_or_retrieval_gap"
    case AnswerRuleOrRenderer => "review_answer_rule_or_renderer_gap"
    case RuntimeContract => "review_runtime_contract_gap"
    case ManualReview => "manual_quality_triage"
  }

  function PriorityFor(severity: string): string {
    match severity
    case "high" => "p1"
    case "medium" => "p2"
    case _ => "p3"
  }

  function Bounded(value: Option<string>, maxChars: nat): Option<string> {
    if value.None? then None
    else
      var trimmed := Text.Trim(value.value);
      if trimmed == "" then None
      else if |trimmed| <= maxChars then Some(trimmed) else Some(trimmed[..maxChars])
  }

  // ---------------------------------------------------------------- observations

  datatype Observation = Observation(
    id: string, tags: seq<string>, owner: Option<string>, severity: string,
    traceId: Option<string>, packageId: Option<string>, now: nat)

  predicate HasEvent(s: Store, id: EventId) {
    exists i | 0 <= i < |s.events| :: s.events[i].id == id
  }

  /** INSERT OR IGNORE. */
  function InsertOrIgnore(s: Store, e: Event): Store {
    if HasEvent(s, e.id) then s else s.(events := s.events + [e])
  }

  function ItemOf(o: Observation): ItemId {
    ItemId(o.id, ActionTypeFor(ClassifyRoute(o.tags, o.owner)))
  }

  function UpsertedItem(s: Store, o: Observation): Item {
    var id, route := ItemOf(o), ClassifyRoute(o.tags, o.owner);
    var trace, package := Bounded(o.traceId, 120), Bounded(o.packageId, 120);
    if id !in s.items then Item(route, Queued, PriorityFor(o.severity), trace, package, None, None, o.now)
    else
      var previous := s.items[id];
      previous.(route := route,
            status := if previous.status == Closed || previous.status == Rejected then Queued else previous.status,
            priority := PriorityFor(o.severity), traceId := trace, packageId := package, updatedAt := o.now)
  }

  /** The event an observation writes, if any. */
  function ObservationEvent(s: Store, o: Observation): Option<Event> {
    var id := ItemOf(o);
    if id !in s.items then Some(Event(EventId(id, QueuedWord, None, o.now), None, Queued))
    else
      var from := s.items[id].status;
      if from == Closed || from == Rejected then
        Some(Event(EventId(id, RequeuedByObservation, Some(from), o.now), Some(from), Queued))
      else None
  }

  /** `upsert_answer_quality_action_item`. */
  function Upsert(s: Store, o: Observation): Store {
    var updated := s.(items := s.items[ItemOf(o) := UpsertedItem(s, o)]);
    var event := ObservationEvent(s, o);
    if event.None? then updated else InsertOrIgnore(updated, event.value)
  }

  // ---------------------------------------------------------------- transitions

  datatype Request = Request(
    item: ItemId, action: string, actor: string, reason: string, linkedType: Option<string>, linkedId: Option<string>,
    now: nat)

  datatype RequestError =
    | ActorRequired | ReasonRequired | UnknownAction | ItemNotFound | InvalidTransition
    | UnknownLinkedType | LinkRequired | LinkNotSupported | EventInsertFailed

  function ParseAction(s: string): Option<Action> {
    match Text.Trim(s)
    case "start_review" => Some(StartReview)
    case "link" => Some(Link)
    case "close" => Some(Close)
    case "reject" => Some(Reject)
    case "requeue" => Some(Requeue)
    case _ => None
  }

  /** `action_transition_target_status`. */
  function Target(action: Action, from: Status): Option<Status> {
    match (action, from)
    case (StartReview, Queued) => Some(InReview)
    case (Link, Queued) => Some(Linked)
    case (Link, InReview) => Some(Linked)
    case (Close, Queued) => Some(Closed)
    case (Close, InReview) => Some(Closed)
    case (Close, Linked) => Some(Closed)
    case (Reject, Queued) => Some(Rejected)
    case (Reject, InReview) => Some(Rejected)
    case (Requeue, InReview) => Some(Queued)
    case (Requeue, Linked) => Some(Queued)
    case (Requeue, Closed) => Some(Queued)
    case (Requeue, Rejected) => Some(Queued)
    case _ => None
  }

  predicate KnownLinkedType(s: string) {
    s in ["rule_candidate", "online_evidence_card_update_request", "raw_evidence_candidate", "governance_task",
        "manual_review_note"]
  }

  datatype Plan = Plan(action: Action, from: Status, to: Status, linkedType: Option<string>, linkedId: Option<string>)

  /** The checks of a transition, in the program's order. */
  function PlanTransition(s: Store, r: Request): Result<Plan, RequestError> {
    if Text.IsBlank(r.actor) then Err(ActorRequired)
    else if Text.IsBlank(r.reason) then Err(ReasonRequired)
    else
      var action := ParseAction(r.action);
      if action.None? then Err(UnknownAction)
      else if r.item !in s.items then Err(ItemNotFound)
      else
        var from := s.items[r.item].status;
        var to := Target(action.value, from);
        var linkedType, linkedId := Bounded(r.linkedType, 96), Bounded(r.linkedId, 220);
        if to.None? then Err(InvalidTransition)
        else if linkedType.Some? && !KnownLinkedType(Text.Trim(linkedType.value)) then Err(UnknownLinkedType)
        else if action.value == Link && (linkedType.None? || linkedId.None?) then Err(LinkRequired)
        else if action.value != Link && (linkedType.Some? || linkedId.Some?) then Err(LinkNotSupported)
        else Ok(Plan(action.value, from, to.value,
                     if linkedType.Some? then Some(Text.Trim(linkedType.value)) else None, linkedId))
  }

  function TransitionEvent(r: Request, p: Plan): Event {
    Event(EventId(r.item, Did(p.action), Some(p.to), r.now), Some(p.from), p.to)
  }

  function Coalesce<T>(first: Option<T>, second: Option<T>): Option<T> {
    if first.Some? then first else second
  }

  /** `transition_answer_quality_action_item`: the update, then the plain INSERT of the event, which
      fails on an id that is already there. */
  function Transition(s: Store, r: Request): (Result<Plan, RequestError>, Store) {
    var plan := PlanTransition(s, r);
    if plan.Err? then (plan, s)
    else
      var p, item := plan.value, s.items[r.item];
      var item' := item.(status := p.to, linkedType := Coalesce(p.linkedType, item.linkedType),
                         linkedId := Coalesce(p.linkedId, item.linkedId), updatedAt := r.now);
      var updated := s.(items := s.items[r.item := item']);
      var event := TransitionEvent(r, p);
      if HasEvent(s, event.id) then (Err(EventInsertFailed), updated)
      else (plan, updated.(events := updated.events + [event]))
  }

  // ---------------------------------------------------------------- the store object

  class ActionItemStore {
    var items: map<ItemId, Item>
    var events: seq<Event>

    constructor ()
      ensures View() == Store(map[], [])
    {
      items, events := map[], [];
    }

    function View(): Store
      reads this
    {
      Store(items, events)
    }

    method Observe(o: Observation)
      modifies this
      ensures View() == Upsert(old(View()), o)
    {
      var id := ItemOf(o);
      var previous := if id in items then Some(items[id].status) else None;
      var event := ObservationEvent(View(), o);
      items := items[id := UpsertedItem(View(), o)];
      if event.Some? && !exists i | 0 <= i < |events| :: events[i].id == event.value.id {
        events := events + [event.value];
      }
    }

    method Handle(r: Request) returns (result: Result<Plan, RequestError>)
      modifies this
      ensures (result, View()) == Transition(old(View()), r)
    {
      result := PlanTransition(View(), r);
      if result.Err? { return; }
      var p := result.value;
      var item := items[r.item];
      item := item.(status := p.to, updatedAt := r.now);
      if p.linkedType.Some? { item := item.(linkedType := p.linkedType); }
      if p.linkedId.Some? { item := item.(linkedId := p.linkedId); }
      items := items[r.item := item];
      var event := TransitionEvent(r, p);
      if exists i | 0 <= i < |events| :: events[i].id == event.id { result := Err(EventInsertFailed); return; }
      events := events + [event];
    }
  }
}
