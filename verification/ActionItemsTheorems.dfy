/** The event log replays to the stored status of every item. */
module ActionItemsTheorems {
  import opened Wrappers
  import opened ActionItems
  import Text

  /** The status the log says the item has. */
  function LastTo(events: seq<Event>, item: ItemId): Option<Status> {
    if events == [] then None
    else
      var last := events[|events| - 1];
      if last.id.item == item then Some(last.to) else LastTo(events[..|events| - 1], item)
  }

  /** Each event of an item starts from the status its previous event ended in; the first from none. */
  ghost predicate Chained(events: seq<Event>) {
    forall i | 0 <= i < |events| :: events[i].from == LastTo(events[..i], events[i].id.item)
  }

  ghost predicate Replays(s: Store) {
    forall item :: LastTo(s.events, item) == if item in s.items then Some(s.items[item].status) else None
  }

  ghost predicate LinkedHasTarget(s: Store) {
    forall item | item in s.items && s.items[item].status == Linked ::
      s.items[item].linkedType.Some? && s.items[item].linkedId.Some?
  }

  ghost predicate Inv(s: Store) {
    Chained(s.events) && Replays(s) && LinkedHasTarget(s)
  }

  lemma ChainedAppend(events: seq<Event>, e: Event)
    requires Chained(events) && e.from == LastTo(events, e.id.item)
    ensures Chained(events + [e])
    ensures forall item :: LastTo(events + [e], item) == if item == e.id.item then Some(e.to) else LastTo(events, item)
  {
    var longer := events + [e];
    assert longer[..|events|] == events;
    forall i | 0 <= i < |longer| ensures longer[i].from == LastTo(longer[..i], longer[i].id.item) {
      assert longer[..i] == events[..i];
      if i < |events| { assert longer[i] == events[i]; }
    }
  }

  lemma {:induction false} LastToSeesEvents(events: seq<Event>, id: EventId)
    requires exists i | 0 <= i < |events| :: events[i].id == id
    ensures LastTo(events, id.item).Some?
  {
    var last := |events| - 1;
    if events[last].id.item != id.item {
      var i :| 0 <= i < |events| && events[i].id == id;
      assert events[..last][i].id == id;
      LastToSeesEvents(events[..last], id);
    }
  }

  function StatusOf(s: Store, item: ItemId): Option<Status> {
    if item in s.items then Some(s.items[item].status) else None
  }

  /** Setting an item and logging the change that made it keeps the log replayable. */
  lemma LoggedChangeKeepsInv(s: Store, item: Item, e: Event)
    requires Inv(s) && item.status == e.to && e.from == StatusOf(s, e.id.item)
    requires item.status == Linked ==> item.linkedType.Some? && item.linkedId.Some?
    ensures Inv(Store(s.items[e.id.item := item], s.events + [e]))
  {
    var s' := Store(s.items[e.id.item := item], s.events + [e]);
    assert LastTo(s.events, e.id.item) == StatusOf(s, e.id.item);
    ChainedAppend(s.events, e);
    forall other ensures LastTo(s'.events, other) == StatusOf(s', other) {
      assert LastTo(s.events, other) == StatusOf(s, other);
    }
  }

  /** Setting an item to another status without logging it does not. */
  lemma UnloggedChangeBreaksInv(s: Store, id: ItemId, item: Item)
    requires Inv(s) && StatusOf(s, id) != Some(item.status)
    ensures !Inv(s.(items := s.items[id := item]))
  {
    var s' := s.(items := s.items[id := item]);
    assert LastTo(s.events, id) == StatusOf(s, id);
    assert LastTo(s'.events, id) != StatusOf(s', id);
  }

  lemma SameStatusKeepsInv(s: Store, id: ItemId, item: Item)
    requires Inv(s) && StatusOf(s, id) == Some(item.status)
    requires item.status == Linked ==> item.linkedType.Some? && item.linkedId.Some?
    ensures Inv(s.(items := s.items[id := item]))
  {
    var s' := s.(items := s.items[id := item]);
    forall other ensures LastTo(s'.events, other) == StatusOf(s', other) {
      assert LastTo(s.events, other) == StatusOf(s, other);
    }
  }

  lemma UpsertedItemMeans(s: Store, o: Observation)
    ensures var item, e, from := UpsertedItem(s, o), ObservationEvent(s, o), StatusOf(s, ItemOf(o));
            && (e.None? ==> from == Some(item.status))
            && (e.Some? ==> item.status == e.value.to == Queued && e.value.from == from != Some(Queued)
                            && e.value.id.item == ItemOf(o) && e.value.id.now == o.now)
            && (item.status == Linked ==> from == Some(Linked) && item.linkedType == s.items[ItemOf(o)].linkedType
                                          && item.linkedId == s.items[ItemOf(o)].linkedId)
  {
  }

  /** An observation keeps the log replayable iff the event it owes, if any, has a new id. */
  lemma UpsertKeepsInvIff(s: Store, o: Observation)
    requires Inv(s)
    ensures Inv(Upsert(s, o)) <==> (ObservationEvent(s, o).Some? ==> !HasEvent(s, ObservationEvent(s, o).value.id))
    ensures ItemOf(o) !in s.items ==> Inv(Upsert(s, o))
  {
    var id, item, event := ItemOf(o), UpsertedItem(s, o), ObservationEvent(s, o);
    UpsertedItemMeans(s, o);
    if event.None? {
      SameStatusKeepsInv(s, id, item);
    } else if HasEvent(s, event.value.id) {
      LastToSeesEvents(s.events, event.value.id);
      assert LastTo(s.events, id) == StatusOf(s, id);
      UnloggedChangeBreaksInv(s, id, item);
    } else {
      LoggedChangeKeepsInv(s, item, event.value);
    }
  }

  /** An accepted transition keeps the log replayable iff its event has a new id: with a repeated id
      the call reports an error after the status has already changed. */
  lemma TransitionKeepsInvIff(s: Store, r: Request)
    requires Inv(s)
    ensures Inv(Transition(s, r).1) <==>
            (PlanTransition(s, r).Ok? ==> !HasEvent(s, TransitionEvent(r, PlanTransition(s, r).value).id))
    ensures Transition(s, r).0 == Err(EventInsertFailed) ==>
        Transition(s, r).1.events == s.events && Transition(s, r).1.items != s.items
  {
    var plan := PlanTransition(s, r);
    if plan.Ok? {
      var p, event, item := plan.value, TransitionEvent(r, plan.value), Transition(s, r).1.items[r.item];
      assert StatusOf(s, r.item) == Some(p.from) && item.status == p.to != p.from;
      if HasEvent(s, event.id) {
        UnloggedChangeBreaksInv(s, r.item, item);
      } else {
        LoggedChangeKeepsInv(s, item, event);
      }
    }
  }

  // ---------------------------------------------------------------- whole runs

  datatype Op = Observed(o: Observation) | Requested(r: Request)

  function TimeOf(op: Op): nat {
    match op
    case Observed(o) => o.now
    case Requested(r) => r.now
  }

  function Apply(s: Store, op: Op): Store {
    match op
    case Observed(o) => Upsert(s, o)
    case Requested(r) => Transition(s, r).1
  }

  function RunOps(ops: seq<Op>): Store {
    if ops == [] then Store(map[], []) else Apply(RunOps(ops[..|ops| - 1]), ops[|ops| - 1])
  }

  /** The event the operation would write, if any, has an id that is not in the log yet. */
  ghost predicate OwedEventIsFresh(s: Store, op: Op) {
    match op
    case Observed(o) => ObservationEvent(s, o).Some? ==> !HasEvent(s, ObservationEvent(s, o).value.id)
    case Requested(r) => PlanTransition(s, r).Ok? ==> !HasEvent(s, TransitionEvent(r, PlanTransition(s, r).value).id)
  }

  ghost predicate FreshRun(ops: seq<Op>) {
    ops == [] || (FreshRun(ops[..|ops| - 1]) && OwedEventIsFresh(RunOps(ops[..|ops| - 1]), ops[|ops| - 1]))
  }

  ghost predicate ReplaysThroughout(ops: seq<Op>) {
    Inv(RunOps(ops)) && (ops == [] || ReplaysThroughout(ops[..|ops| - 1]))
  }

  /** A run keeps its log replayable at every point iff no operation of it reuses an event id. */
  lemma {:induction false} ReplaysThroughoutIffFresh(ops: seq<Op>)
    ensures ReplaysThroughout(ops) <==> FreshRun(ops)
  {
    if ops != [] {
      var front, op := ops[..|ops| - 1], ops[|ops| - 1];
      ReplaysThroughoutIffFresh(front);
      var s := RunOps(front);
      if FreshRun(front) {
        match op {
          case Observed(o) => UpsertKeepsInvIff(s, o);
          case Requested(r) => TransitionKeepsInvIff(s, r);
        }
      }
    }
  }

  ghost predicate TimeOrdered(ops: seq<Op>) {
    forall i, j | 0 <= i < j < |ops| :: TimeOf(ops[i]) < TimeOf(ops[j])
  }

  /** The events were written in the order of their times. */
  ghost predicate EventsOrdered(events: seq<Event>) {
    forall i, j | 0 <= i < j < |events| :: events[i].id.now < events[j].id.now
  }

  ghost predicate EventsBefore(events: seq<Event>, now: nat) {
    forall i | 0 <= i < |events| :: events[i].id.now < now
  }

  /** An operation writes at most one event, at its own time. */
  lemma ApplyWritesAtItsTime(s: Store, op: Op)
    ensures var s' := Apply(s, op);
            || s'.events == s.events
            || (s.events < s'.events && |s'.events| == |s.events| + 1 && s'.events[|s.events|].id.now == TimeOf(op))
  {
  }

  lemma OrderIsKept(s: Store, op: Op)
    requires EventsOrdered(s.events) && EventsBefore(s.events, TimeOf(op))
    ensures EventsOrdered(Apply(s, op).events) && EventsBefore(Apply(s, op).events, TimeOf(op) + 1)
  {
    ApplyWritesAtItsTime(s, op);
  }

  lemma EarlierEventsMeanFreshIds(s: Store, op: Op)
    requires Inv(s) && EventsBefore(s.events, TimeOf(op))
    ensures Inv(Apply(s, op))
  {
    match op {
      case Observed(o) =>
        UpsertedItemMeans(s, o);
        UpsertKeepsInvIff(s, o);
      case Requested(r) => TransitionKeepsInvIff(s, r);
    }
  }

  /** In every time-ordered run the events of each item chain and replay to its stored status, and a
      linked item has both link fields. */
  lemma {:induction false} RunReplays(ops: seq<Op>)
    requires TimeOrdered(ops)
    ensures Inv(RunOps(ops)) && EventsOrdered(RunOps(ops).events)
    ensures EventsBefore(RunOps(ops).events, if ops == [] then 0 else TimeOf(ops[|ops| - 1]) + 1)
  {
    if ops != [] {
      var front, op := ops[..|ops| - 1], ops[|ops| - 1];
      RunReplays(front);
      var s := RunOps(front);
      assert EventsBefore(s.events, TimeOf(op)) by {
        if front != [] { assert TimeOf(front[|front| - 1]) < TimeOf(op); }
      }
      EarlierEventsMeanFreshIds(s, op);
      OrderIsKept(s, op);
    }
  }

  /** The id of every stored item is made of the action type of the item's own route. */
  ghost predicate TypedByRoute(s: Store) {
    forall id | id in s.items :: id.actionType == ActionTypeFor(s.items[id].route)
  }

  lemma {:induction false} RunKeepsTypes(ops: seq<Op>)
    ensures TypedByRoute(RunOps(ops))
  {
    if ops != [] {
      RunKeepsTypes(ops[..|ops| - 1]);
      OperationKeepsTypes(RunOps(ops[..|ops| - 1]), ops[|ops| - 1]);
    }
  }

  lemma UpsertKeepsTypes(s: Store, o: Observation)
    requires TypedByRoute(s)
    ensures TypedByRoute(Upsert(s, o))
  {
    assert UpsertedItem(s, o).route == ClassifyRoute(o.tags, o.owner);
    assert Upsert(s, o).items == s.items[ItemOf(o) := UpsertedItem(s, o)];
  }

  lemma TransitionKeepsTypes(s: Store, r: Request)
    requires TypedByRoute(s)
    ensures TypedByRoute(Transition(s, r).1)
  {
    var s' := Transition(s, r).1;
    if PlanTransition(s, r).Ok? {
      assert s'.items.Keys == s.items.Keys && s'.items[r.item].route == s.items[r.item].route;
    }
  }

  lemma OperationKeepsTypes(s: Store, op: Op)
    requires TypedByRoute(s)
    ensures TypedByRoute(Apply(s, op))
  {
    match op {
      case Observed(o) => UpsertKeepsTypes(s, o);
      case Requested(r) => TransitionKeepsTypes(s, r);
    }
  }

  function ItemFor(observation: string, route: Route): ItemId {
    ItemId(observation, ActionTypeFor(route))
  }

  /** In every run an observation never has more than five items: one for each of the action types the
      five routes lead to. */
  lemma AtMostFiveItems(ops: seq<Op>, observation: string)
    ensures |set id | id in RunOps(ops).items && id.observation == observation| <= 5
  {
    var s := RunOps(ops);
    var own := set id | id in s.items && id.observation == observation;
    var all := FiveItems(observation);
    RunKeepsTypes(ops);
    forall id | id in own ensures id in all {
      RouteIsOneOfFive(observation, s.items[id].route);
      assert id == ItemFor(observation, s.items[id].route);
    }
    assert own <= all;
    assert all == own + (all - own);
  }

  function FiveItems(observation: string): (r: set<ItemId>)
    ensures |r| <= 5
  {
    {ItemFor(observation, ContextRuleCandidate), ItemFor(observation, EvidenceCardOrRetrieval),
     ItemFor(observation, AnswerRuleOrRenderer), ItemFor(observation, RuntimeContract),
     ItemFor(observation, ManualReview)}
  }

  lemma RouteIsOneOfFive(observation: string, route: Route)
    ensures ItemFor(observation, route) in FiveItems(observation)
  {
    match route {
      case ContextRuleCandidate =>
      case EvidenceCardOrRetrieval =>
      case AnswerRuleOrRenderer =>
      case RuntimeContract =>
      case ManualReview =>
    }
  }

  // ---------------------------------------------------------------- a run that reuses an event id

  function Ask(o: Observation, action: string): Op {
    Requested(Request(ItemOf(o), action, "admin", "checked", None, None, o.now))
  }

  lemma PlainActionPlans(s: Store, o: Observation, name: string, action: Action, to: Status)
    requires ItemOf(o) in s.items && Target(action, s.items[ItemOf(o)].status) == Some(to) && action != Link
    requires ParseAction(name) == Some(action)
    ensures PlanTransition(s, Ask(o, name).r) == Ok(Plan(action, s.items[ItemOf(o)].status, to, None, None))
  {
    assert "admin"[0] == 'a' && "checked"[0] == 'c';
  }

  lemma NamesParse()
    ensures ParseAction("start_review") == Some(StartReview) && ParseAction("requeue") == Some(Requeue)
  {
    Text.TrimmedStays("start_review");
    Text.TrimmedStays("requeue");
  }

  /** The item just observed is queued, with one event. */
  lemma FreshItem(o: Observation)
    ensures var s := RunOps([Observed(o)]);
            && ItemOf(o) in s.items && s.items[ItemOf(o)].status == Queued
            && s.events == [Event(EventId(ItemOf(o), QueuedWord, None, o.now), None, Queued)]
  {
    assert [Observed(o)][..0] == [];
    assert !HasEvent(Store(map[], []), EventId(ItemOf(o), QueuedWord, None, o.now));
  }

  lemma RunOneMore(ops: seq<Op>, op: Op)
    ensures RunOps(ops + [op]) == Apply(RunOps(ops), op)
  {
    assert (ops + [op])[..|ops|] == ops;
  }

  /** An accepted action other than a link sets the status, and writes its event if the id is new. */
  lemma PlainActionApplies(s: Store, o: Observation, name: string, action: Action, to: Status)
    requires ItemOf(o) in s.items && Target(action, s.items[ItemOf(o)].status) == Some(to) && action != Link
    requires ParseAction(name) == Some(action)
    ensures var (r, s') := Transition(s, Ask(o, name).r);
            var id := EventId(ItemOf(o), Did(action), Some(to), o.now);
            && ItemOf(o) in s'.items && s'.items[ItemOf(o)].status == to
            && if HasEvent(s, id) then r == Err(EventInsertFailed) && s'.events == s.events
               else s'.events == s.events + [Event(id, Some(s.items[ItemOf(o)].status), to)]
  {
    PlainActionPlans(s, o, name, action, to);
  }

  /** An item reviewed, requeued and reviewed again within one tick of the clock, from the empty store:
      the second review changes the status and then fails to write its event. */
  lemma RepeatedReviewIsReached(o: Observation)
    ensures var s := RunOps([Observed(o)] + [Ask(o, "start_review")] + [Ask(o, "requeue")]);
            var (r, s') := Transition(s, Ask(o, "start_review").r);
            && r == Err(EventInsertFailed) && s'.events == s.events
            && ItemOf(o) in s.items && s.items[ItemOf(o)].status == Queued
            && ItemOf(o) in s'.items && s'.items[ItemOf(o)].status == InReview
  {
    var seen := [Observed(o)];
    var s1, s2 := RunOps(seen), RunOps(seen + [Ask(o, "start_review")]);
    var s3 := RunOps(seen + [Ask(o, "start_review")] + [Ask(o, "requeue")]);
    NamesParse();
    FreshItem(o);
    RunOneMore(seen, Ask(o, "start_review"));
    PlainActionApplies(s1, o, "start_review", StartReview, InReview);
    RunOneMore(seen + [Ask(o, "start_review")], Ask(o, "requeue"));
    PlainActionApplies(s2, o, "requeue", Requeue, Queued);
    PlainActionApplies(s3, o, "start_review", StartReview, InReview);
    assert s3.events[1].id == EventId(ItemOf(o), Did(StartReview), Some(InReview), o.now);
  }
}
