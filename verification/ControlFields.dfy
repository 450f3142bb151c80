/** Removing gateway control fields from a request body, in place. The Python objects live in a heap
    of dicts and lists that refer to each other, so that update in place and sharing are visible. */
module ControlFields {
  type Ref = nat

  datatype Value = Atom(text: string) | DictRef(r: Ref) | ListRef(r: Ref)

  datatype Heap = Heap(dicts: map<Ref, map<string, Value>>, lists: map<Ref, seq<Value>>)

  predicate InHeap(h: Heap, v: Value) {
    match v
    case Atom(_) => true
    case DictRef(r) => r in h.dicts
    case ListRef(r) => r in h.lists
  }

  type Rank = Value -> nat

  /** Every reference is to an object of the heap, and the objects are not cyclic. */
  ghost predicate Ranked(h: Heap, rank: Rank) {
    && (forall r, k | r in h.dicts && k in h.dicts[r] ::
        InHeap(h, h.dicts[r][k]) && rank(h.dicts[r][k]) < rank(DictRef(r)))
    && (forall r, i | r in h.lists && 0 <= i < |h.lists[r]| ::
        InHeap(h, h.lists[r][i]) && rank(h.lists[r][i]) < rank(ListRef(r)))
  }

  /** The dicts reachable from a value without going through a forbidden key. */
  ghost function Reach(h: Heap, rank: Rank, forbidden: set<string>, v: Value): set<Ref>
    requires Ranked(h, rank) && InHeap(h, v)
    decreases rank(v)
  {
    match v
    case Atom(_) => {}
    case DictRef(r) => {r} + set k, x | k in h.dicts[r] && k !in forbidden
        && x in Reach(h, rank, forbidden, h.dicts[r][k]) :: x
    case ListRef(r) => set i, x | 0 <= i < |h.lists[r]| && x in Reach(h, rank, forbidden, h.lists[r][i]) :: x
  }

  /** The heap with the forbidden keys taken out of the dicts in `stripped`. */
  function Strip(h: Heap, forbidden: set<string>, stripped: set<Ref>): Heap {
    h.(dicts := map x | x in h.dicts :: if x in stripped then h.dicts[x] - forbidden else h.dicts[x])
  }

  /** h' is h with some forbidden keys taken out of some dicts. */
  ghost predicate Thinner(h: Heap, h': Heap, forbidden: set<string>) {
    && h'.lists == h.lists && h'.dicts.Keys == h.dicts.Keys
    && (forall x | x in h.dicts :: h'.dicts[x].Keys <= h.dicts[x].Keys)
    && (forall x, k | x in h.dicts && k in h'.dicts[x] :: h'.dicts[x][k] == h.dicts[x][k])
    && (forall x, k | x in h.dicts && k in h.dicts[x] && k !in forbidden :: k in h'.dicts[x])
  }

  lemma ThinnerIsRanked(h: Heap, h': Heap, forbidden: set<string>, rank: Rank)
    requires Ranked(h, rank) && Thinner(h, h', forbidden)
    ensures Ranked(h', rank)
    ensures forall v :: InHeap(h', v) <==> InHeap(h, v)
  {
  }

  lemma {:induction false} ThinnerReachesTheSame(h: Heap, h': Heap, forbidden: set<string>, rank: Rank, v: Value)
    requires Ranked(h, rank) && Ranked(h', rank) && Thinner(h, h', forbidden) && InHeap(h, v) && InHeap(h', v)
    ensures Reach(h', rank, forbidden, v) == Reach(h, rank, forbidden, v)
    decreases rank(v)
  {
    match v {
      case Atom(_) =>
      case DictRef(r) =>
        forall k | k in h.dicts[r] && k !in forbidden
          ensures Reach(h', rank, forbidden, h'.dicts[r][k]) == Reach(h, rank, forbidden, h.dicts[r][k])
        {
          ThinnerReachesTheSame(h, h', forbidden, rank, h.dicts[r][k]);
        }
      case ListRef(r) =>
        forall i | 0 <= i < |h.lists[r]|
          ensures Reach(h', rank, forbidden, h'.lists[r][i]) == Reach(h, rank, forbidden, h.lists[r][i])
        {
          ThinnerReachesTheSame(h, h', forbidden, rank, h.lists[r][i]);
        }
    }
  }

  lemma {:induction false} ReachIsBelow(h: Heap, rank: Rank, forbidden: set<string>, v: Value, x: Ref)
    requires Ranked(h, rank) && InHeap(h, v) && x in Reach(h, rank, forbidden, v)
    ensures x in h.dicts && rank(DictRef(x)) <= rank(v)
    decreases rank(v)
  {
    match v {
      case DictRef(r) =>
        if x != r {
          var k :| k in h.dicts[r] && k !in forbidden && x in Reach(h, rank, forbidden, h.dicts[r][k]);
          ReachIsBelow(h, rank, forbidden, h.dicts[r][k], x);
        }
      case ListRef(r) =>
        var i :| 0 <= i < |h.lists[r]| && x in Reach(h, rank, forbidden, h.lists[r][i]);
        ReachIsBelow(h, rank, forbidden, h.lists[r][i], x);
    }
  }

  /** Which keys are stripped, and from which members of the body. */
  datatype Filter = Filter(forbidden: set<string>, recursive: set<string>, shallow: set<string>)

  const FORBIDDEN_FIELDS: set<string> := {
    "agent", "agent_id", "agent_profile", "agent_runtime", "agent_runtime_plan_gate", "agent_runtime_summary",
    "profile", "internal_agent", "honglou_agent", "runtime_profile", "runtime_step_outputs", "runtime_step_plan",
    "reviewer", "skip_reviewer", "disable_reviewer", "allowed_tools", "required_evidence_types", "trace_id",
    "package_id", "evidence_package_id", "admin_trace", "audit_events", "internal_trace", "runtime_tools_used",
    "workflow_states", "workflow_state", "tools", "tool_choice", "functions", "function_call",
    "parallel_tool_calls", "system_prompt", "instructions", "profile_config", "internal_config",
    "interaction_context_id", "context_pack_id", "context_pack_ref", "context_projection", "context_projection_id",
    "context_projection_ref", "context_projection_digest", "consumer_type", "consumer_name", "runtime_adapter",
    "context_scope_binding", "scope_id", "scope_graph", "memory_read_scopes", "memory_read_refs",
    "memory_read_ref_digest", "memory_read_policy_digest", "memory_write_scopes", "memory_scope",
    "memory_summaries", "memory_policy", "memory_policy_digest", "memory_usage_summary", "memory_candidate",
    "memory_candidate_id", "memory_candidate_ref", "memory_candidates", "memory_card", "memory_card_id",
    "memory_card_ref", "memory_cards", "memory_policy_decision", "memory_policy_decision_id",
    "memory_policy_decision_ref", "memory_policy_decisions", "memory_transition_audit", "memory_collector",
    "llm_extraction", "llm_filter", "rule_filter", "read_enabled", "forbidden_tools", "tool_policy_digest",
    "output_contract_digest", "session_journal"}

  const GATEWAY := Filter(FORBIDDEN_FIELDS, {"metadata", "extra_body", "options", "parameters", "config"}, {"user"})

  /** What the recursive containers among `keys` reach. */
  ghost function ContainersReach(h: Heap, rank: Rank, f: Filter, body: Ref, keys: set<string>): set<Ref>
    requires Ranked(h, rank) && body in h.dicts
  {
    set k, x | k in keys && k in h.dicts[body] && k !in f.forbidden
        && x in Reach(h, rank, f.forbidden, h.dicts[body][k]) :: x
  }

  ghost function ShallowDicts(h: Heap, f: Filter, body: Ref, keys: set<string>): set<Ref>
    requires body in h.dicts
  {
    set k | k in keys && k in h.dicts[body] && k !in f.forbidden && h.dicts[body][k].DictRef? :: h.dicts[body][k].r
  }

  /** The dicts of a body that lose their forbidden keys: the body itself, every dict the recursive
      containers reach, and the shallow containers themselves. */
  ghost function Touched(h: Heap, rank: Rank, f: Filter, body: Ref): set<Ref>
    requires Ranked(h, rank) && body in h.dicts
  {
    {body} + ContainersReach(h, rank, f, body, f.recursive) + ShallowDicts(h, f, body, f.shallow)
  }

  class Memory {
    var dicts: map<Ref, map<string, Value>>
    var lists: map<Ref, seq<Value>>

    function View(): Heap
      reads this
    {
      Heap(dicts, lists)
    }

    method Pop(r: Ref, key: string)
      requires r in dicts
      modifies this
      ensures View() == old(View()).(dicts := old(dicts)[r := old(dicts)[r] - {key}])
    {
      dicts := dicts[r := dicts[r] - {key}];
    }

    /** `_strip_control_fields_recursive`. */
    method StripRecursive(forbidden: set<string>, v: Value, ghost rank: Rank)
      requires Ranked(View(), rank) && InHeap(View(), v)
      modifies this
      ensures View() == Strip(old(View()), forbidden, Reach(old(View()), rank, forbidden, v))
      decreases rank(v)
    {
      match v {
        case DictRef(r) => StripDict(forbidden, r, rank);
        case ListRef(r) => StripList(forbidden, r, rank);
        case Atom(_) => StripNothing(View(), forbidden);
      }
    }

    method StripList(forbidden: set<string>, r: Ref, ghost rank: Rank)
      requires Ranked(View(), rank) && r in lists
      modifies this
      ensures View() == Strip(old(View()), forbidden, Reach(old(View()), rank, forbidden, ListRef(r)))
      decreases rank(ListRef(r)), 0
    {
      ghost var h := View();
      ghost var done: set<Ref> := {};
      StripNothing(h, forbidden);
      var i := 0;
      while i < |lists[r]|
        invariant lists == h.lists && 0 <= i <= |lists[r]|
        invariant View() == Strip(h, forbidden, done)
        invariant done == ReachOfItems(h, rank, forbidden, r, i)
      {
        var item := lists[r][i];
        StripMore(h, View(), forbidden, rank, done, item);
        StripRecursive(forbidden, item, rank);
        done := done + Reach(h, rank, forbidden, item);
        i := i + 1;
      }
      assert done == Reach(h, rank, forbidden, ListRef(r));
    }

    method StripDict(forbidden: set<string>, r: Ref, ghost rank: Rank)
      requires Ranked(View(), rank) && r in dicts
      modifies this
      ensures View() == Strip(old(View()), forbidden, Reach(old(View()), rank, forbidden, DictRef(r)))
      decreases rank(DictRef(r)), 0
    {
      ghost var h := View();
      ghost var done: set<Ref> := {};
      ghost var seen: set<string> := {};
      var keys := dicts[r].Keys;
      PartlyAtStart(h, forbidden, r);
      while keys != {}
        invariant keys !! seen && keys + seen == h.dicts[r].Keys
        invariant View() == Partly(h, forbidden, done, r, seen)
        invariant done == ReachOf(h, rank, forbidden, r, seen)
        decreases keys
      {
        var key :| key in keys;
        keys := keys - {key};
        ReachOfGrows(h, rank, forbidden, r, seen, key);
        if key in forbidden {
          PopPartly(h, forbidden, done, r, seen, key);
          Pop(r, key);
        } else {
          var child := dicts[r][key];
          StripMoreOf(h, View(), forbidden, rank, done, r, seen, key);
          StripRecursive(forbidden, child, rank);
          done := done + Reach(h, rank, forbidden, child);
        }
        seen := seen + {key};
      }
      PartlyAtEnd(h, forbidden, rank, r, seen);
    }

    /** `_strip_gateway_control_fields`, for any three sets of keys. */
    method StripBody(body: Ref, f: Filter, ghost rank: Rank)
      requires Ranked(View(), rank) && body in dicts
      modifies this
      ensures View() == Strip(old(View()), f.forbidden, Touched(old(View()), rank, f, body))
    {
      ghost var h := View();
      PopForbidden(f.forbidden, body);
      StripContainers(h, body, f, rank);
      StripShallow(h, body, f, {body} + ContainersReach(h, rank, f, body, f.recursive));
    }

    /** The recursive containers, h being the heap before the body was touched. */
    method StripContainers(ghost h: Heap, body: Ref, f: Filter, ghost rank: Rank)
      requires Ranked(h, rank) && body in h.dicts && View() == Strip(h, f.forbidden, {body})
      modifies this
      ensures View() == Strip(h, f.forbidden, {body} + ContainersReach(h, rank, f, body, f.recursive))
    {
      ghost var done := {body};
      var keys := f.recursive;
      while keys != {}
        invariant keys <= f.recursive
        invariant View() == Strip(h, f.forbidden, done)
        invariant done == {body} + ContainersReach(h, rank, f, body, f.recursive - keys)
        decreases keys
      {
        var key :| key in keys;
        keys := keys - {key};
        ContainersGrow(h, rank, f, body, f.recursive - keys - {key}, key);
        assert f.recursive - keys == (f.recursive - keys - {key}) + {key};
        if key in dicts[body] {
          var child := dicts[body][key];
          StripMore(h, View(), f.forbidden, rank, done, child);
          StripRecursive(f.forbidden, child, rank);
          done := done + Reach(h, rank, f.forbidden, child);
        }
      }
      assert f.recursive - keys == f.recursive;
    }

    /** The shallow containers: their own forbidden keys only. */
    method StripShallow(ghost h: Heap, body: Ref, f: Filter, ghost deep: set<Ref>)
      requires body in h.dicts && body in deep && View() == Strip(h, f.forbidden, deep)
      requires forall k | k in h.dicts[body] :: InHeap(h, h.dicts[body][k])
      modifies this
      ensures View() == Strip(h, f.forbidden, deep + ShallowDicts(h, f, body, f.shallow))
    {
      ghost var done := deep;
      var keys := f.shallow;
      while keys != {}
        invariant keys <= f.shallow
        invariant View() == Strip(h, f.forbidden, done) && body in done
        invariant done == deep + ShallowDicts(h, f, body, f.shallow - keys)
        decreases keys
      {
        var key :| key in keys;
        keys := keys - {key};
        assert f.shallow - keys == (f.shallow - keys - {key}) + {key};
        ShallowGrow(h, f, body, f.shallow - keys - {key}, key);
        if key in dicts[body] && dicts[body][key].DictRef? {
          var r := dicts[body][key].r;
          PopForbidden(f.forbidden, r);
          StripUnion(h, f.forbidden, done, {r});
          done := done + {r};
        }
      }
      assert f.shallow - keys == f.shallow;
    }

    /** `_strip_gateway_control_fields`. */
    method StripGatewayControlFields(body: Ref, ghost rank: Rank)
      requires Ranked(View(), rank) && body in dicts
      modifies this
      ensures View() == Strip(old(View()), FORBIDDEN_FIELDS, Touched(old(View()), rank, GATEWAY, body))
    {
      StripBody(body, GATEWAY, rank);
    }

    /** One dict's own forbidden keys popped. */
    method PopForbidden(forbidden: set<string>, r: Ref)
      requires r in dicts
      modifies this
      ensures View() == Strip(old(View()), forbidden, {r})
    {
      ghost var h := View();
      ghost var seen: set<string> := {};
      var keys := dicts[r].Keys;
      PartlyAtStart(h, forbidden, r);
      while keys != {}
        invariant keys !! seen && keys + seen == h.dicts[r].Keys
        invariant View() == Partly(h, forbidden, {}, r, seen)
        decreases keys
      {
        var key :| key in keys;
        keys := keys - {key};
        if key in forbidden {
          PopPartly(h, forbidden, {}, r, seen, key);
          Pop(r, key);
        } else {
          SeeingAllowedKey(h, forbidden, {}, r, seen, key);
        }
        seen := seen + {key};
      }
      PoppedAtEnd(h, forbidden, r, seen);
    }
  }

  ghost function ReachOf(h: Heap, rank: Rank, forbidden: set<string>, r: Ref, keys: set<string>): set<Ref>
    requires Ranked(h, rank) && r in h.dicts && keys <= h.dicts[r].Keys
  {
    set k, x | k in keys && k !in forbidden && x in Reach(h, rank, forbidden, h.dicts[r][k]) :: x
  }

  /** The heap in the middle of a dict's loop. */
  function Partly(h: Heap, forbidden: set<string>, done: set<Ref>, r: Ref, seen: set<string>): Heap
    requires r in h.dicts
  {
    var s := Strip(h, forbidden, done);
    s.(dicts := s.dicts[r := h.dicts[r] - (forbidden * seen)])
  }

  lemma StripNothing(h: Heap, forbidden: set<string>)
    ensures Strip(h, forbidden, {}) == h
  {
    assert Strip(h, forbidden, {}).dicts == h.dicts;
  }

  lemma WithoutTwice(m: map<string, Value>, a: set<string>, b: set<string>)
    requires a <= b
    ensures (m - a) - b == m - b
  {
    assert ((m - a) - b).Keys == (m - b).Keys;
  }

  lemma StripUnion(h: Heap, forbidden: set<string>, s: set<Ref>, t: set<Ref>)
    ensures Strip(Strip(h, forbidden, s), forbidden, t) == Strip(h, forbidden, s + t)
  {
    var twice, once := Strip(Strip(h, forbidden, s), forbidden, t), Strip(h, forbidden, s + t);
    forall x | x in h.dicts ensures twice.dicts[x] == once.dicts[x] { WithoutTwice(h.dicts[x], forbidden, forbidden); }
    assert twice.dicts == once.dicts;
  }

  lemma StripIsThinner(h: Heap, forbidden: set<string>, s: set<Ref>)
    ensures Thinner(h, Strip(h, forbidden, s), forbidden)
  {
  }

  lemma PartlyIsThinner(h: Heap, forbidden: set<string>, s: set<Ref>, r: Ref, seen: set<string>)
    requires r in h.dicts
    ensures Thinner(h, Partly(h, forbidden, s, r, seen), forbidden)
  {
  }

  lemma StripMore(h: Heap, now: Heap, forbidden: set<string>, rank: Rank, done: set<Ref>, v: Value)
    requires Ranked(h, rank) && InHeap(h, v) && now == Strip(h, forbidden, done)
    ensures Ranked(now, rank) && InHeap(now, v)
    ensures Reach(now, rank, forbidden, v) == Reach(h, rank, forbidden, v)
    ensures Strip(now, forbidden, Reach(h, rank, forbidden, v)) ==
        Strip(h, forbidden, done + Reach(h, rank, forbidden, v))
  {
    StripIsThinner(h, forbidden, done);
    ThinnerIsRanked(h, now, forbidden, rank);
    ThinnerReachesTheSame(h, now, forbidden, rank, v);
    StripUnion(h, forbidden, done, Reach(h, rank, forbidden, v));
  }

  lemma StripPartly(h: Heap, forbidden: set<string>, done: set<Ref>, r: Ref, seen: set<string>, more: set<Ref>)
    requires r in h.dicts && r !in more
    ensures Strip(Partly(h, forbidden, done, r, seen), forbidden, more) == Partly(h, forbidden, done + more, r, seen)
  {
    var a, b := Strip(Partly(h, forbidden, done, r, seen), forbidden, more), Partly(h, forbidden, done + more, r, seen);
    forall x | x in h.dicts ensures a.dicts[x] == b.dicts[x] {
      if x != r { WithoutTwice(h.dicts[x], forbidden, forbidden); }
    }
    assert a.dicts == b.dicts;
  }

  lemma StripMoreOf(h: Heap, now: Heap, forbidden: set<string>, rank: Rank, done: set<Ref>, r: Ref, seen: set<string>,
      key: string)
    requires Ranked(h, rank) && r in h.dicts && now == Partly(h, forbidden, done, r, seen)
    requires key in h.dicts[r] && key !in forbidden
    ensures Ranked(now, rank) && key in now.dicts[r] && now.dicts[r][key] == h.dicts[r][key]
        && InHeap(now, h.dicts[r][key])
    ensures var more := Reach(h, rank, forbidden, h.dicts[r][key]);
            && Reach(now, rank, forbidden, h.dicts[r][key]) == more
            && Strip(now, forbidden, more) == Partly(h, forbidden, done + more, r, seen + {key})
  {
    var child := h.dicts[r][key];
    var more := Reach(h, rank, forbidden, child);
    ChildStaysReachable(h, now, forbidden, rank, done, r, seen, key);
    assert r !in more by { if r in more { ReachIsBelow(h, rank, forbidden, child, r); } }
    StripPartly(h, forbidden, done, r, seen, more);
    SeeingAllowedKey(h, forbidden, done + more, r, seen, key);
  }

  lemma ChildStaysReachable(h: Heap, now: Heap, forbidden: set<string>, rank: Rank, done: set<Ref>, r: Ref,
      seen: set<string>, key: string)
    requires Ranked(h, rank) && r in h.dicts && now == Partly(h, forbidden, done, r, seen)
    requires key in h.dicts[r] && key !in forbidden
    ensures Ranked(now, rank) && key in now.dicts[r] && now.dicts[r][key] == h.dicts[r][key]
        && InHeap(now, h.dicts[r][key])
    ensures Reach(now, rank, forbidden, h.dicts[r][key]) == Reach(h, rank, forbidden, h.dicts[r][key])
  {
    PartlyIsThinner(h, forbidden, done, r, seen);
    ThinnerIsRanked(h, now, forbidden, rank);
    ThinnerReachesTheSame(h, now, forbidden, rank, h.dicts[r][key]);
  }

  lemma SeeingAllowedKey(h: Heap, forbidden: set<string>, done: set<Ref>, r: Ref, seen: set<string>, key: string)
    requires r in h.dicts && key !in forbidden
    ensures Partly(h, forbidden, done, r, seen + {key}) == Partly(h, forbidden, done, r, seen)
  {
    assert forbidden * (seen + {key}) == forbidden * seen;
  }

  lemma PopPartly(h: Heap, forbidden: set<string>, done: set<Ref>, r: Ref, seen: set<string>, key: string)
    requires r in h.dicts && key in forbidden
    ensures var now := Partly(h, forbidden, done, r, seen);
            now.(dicts := now.dicts[r := now.dicts[r] - {key}]) == Partly(h, forbidden, done, r, seen + {key})
  {
    var m := h.dicts[r];
    assert (m - (forbidden * seen)) - {key} == m - (forbidden * (seen + {key})) by {
      assert ((m - (forbidden * seen)) - {key}).Keys == (m - (forbidden * (seen + {key}))).Keys;
    }
  }

  lemma PartlyAtStart(h: Heap, forbidden: set<string>, r: Ref)
    requires r in h.dicts
    ensures Partly(h, forbidden, {}, r, {}) == h
  {
    StripNothing(h, forbidden);
    assert forbidden * {} == {};
    assert h.dicts[r] - {} == h.dicts[r];
    assert h.dicts[r := h.dicts[r]] == h.dicts;
  }

  lemma PartlyAtEnd(h: Heap, forbidden: set<string>, rank: Rank, r: Ref, seen: set<string>)
    requires Ranked(h, rank) && r in h.dicts && seen == h.dicts[r].Keys
    ensures Partly(h, forbidden, ReachOf(h, rank, forbidden, r, seen), r, seen) ==
        Strip(h, forbidden, Reach(h, rank, forbidden, DictRef(r)))
  {
    var done := ReachOf(h, rank, forbidden, r, seen);
    var m := h.dicts[r];
    assert Reach(h, rank, forbidden, DictRef(r)) == {r} + done;
    assert m - (forbidden * seen) == m - forbidden by { assert (m - (forbidden * seen)).Keys == (m - forbidden).Keys; }
    assert Partly(h, forbidden, done, r, seen).dicts == Strip(h, forbidden, {r} + done).dicts;
  }

  lemma ReachOfGrows(h: Heap, rank: Rank, forbidden: set<string>, r: Ref, seen: set<string>, key: string)
    requires Ranked(h, rank) && r in h.dicts && seen <= h.dicts[r].Keys && key in h.dicts[r]
    ensures ReachOf(h, rank, forbidden, r, seen + {key}) ==
            ReachOf(h, rank, forbidden, r, seen) + if key in forbidden then {}
                else Reach(h, rank, forbidden, h.dicts[r][key])
  {
  }

  ghost function ReachOfItems(h: Heap, rank: Rank, forbidden: set<string>, r: Ref, n: nat): set<Ref>
    requires Ranked(h, rank) && r in h.lists && n <= |h.lists[r]|
  {
    set j, x | 0 <= j < n && x in Reach(h, rank, forbidden, h.lists[r][j]) :: x
  }

  lemma ContainersGrow(h: Heap, rank: Rank, f: Filter, body: Ref, keys: set<string>, key: string)
    requires Ranked(h, rank) && body in h.dicts
    ensures ContainersReach(h, rank, f, body, keys + {key}) == ContainersReach(h, rank, f, body, keys)
              + if key in h.dicts[body] && key !in f.forbidden then Reach(h, rank, f.forbidden, h.dicts[body][key])
                  else {}
  {
  }

  lemma ShallowGrow(h: Heap, f: Filter, body: Ref, keys: set<string>, key: string)
    requires body in h.dicts
    ensures ShallowDicts(h, f, body, keys + {key}) == ShallowDicts(h, f, body, keys)
              + if key in h.dicts[body] && key !in f.forbidden && h.dicts[body][key].DictRef? then
                  {h.dicts[body][key].r} else {}
  {
  }

  lemma PoppedAtEnd(h: Heap, forbidden: set<string>, r: Ref, seen: set<string>)
    requires r in h.dicts && seen == h.dicts[r].Keys
    ensures Partly(h, forbidden, {}, r, seen) == Strip(h, forbidden, {r})
  {
    var m := h.dicts[r];
    assert m - (forbidden * seen) == m - forbidden by { assert (m - (forbidden * seen)).Keys == (m - forbidden).Keys; }
    assert Partly(h, forbidden, {}, r, seen).dicts == Strip(h, forbidden, {r}).dicts;
  }
}
