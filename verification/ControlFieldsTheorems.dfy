/** What stripping means for the JSON tree a body stands for. */
module ControlFieldsTheorems {
  import opened Wrappers
  import opened ControlFields

  datatype Tree = Leaf(text: string) | Dict(entries: map<string, Tree>) | List(items: seq<Tree>)

  /** The tree a value of the heap unfolds to. */
  ghost function Contents(h: Heap, rank: Rank, v: Value): Tree
    requires Ranked(h, rank) && InHeap(h, v)
    decreases rank(v)
  {
    match v
    case Atom(text) => Leaf(text)
    case DictRef(r) => Dict(map k | k in h.dicts[r] :: Contents(h, rank, h.dicts[r][k]))
    case ListRef(r) => List(seq(|h.lists[r]|, i requires 0 <= i < |h.lists[r]| => Contents(h, rank, h.lists[r][i])))
  }

  function StripTree(t: Tree, forbidden: set<string>): Tree {
    match t
    case Leaf(_) => t
    case Dict(entries) => Dict(map k | k in entries && k !in forbidden :: StripTree(entries[k], forbidden))
    case List(items) => List(seq(|items|, i requires 0 <= i < |items| => StripTree(items[i], forbidden)))
  }

  datatype Segment = Key(key: string) | Index(index: nat)

  function At(t: Tree, path: seq<Segment>): Option<Tree>
    decreases |path|
  {
    if path == [] then Some(t)
    else match (t, path[0])
      case (Dict(entries), Key(k)) => if k in entries then At(entries[k], path[1..]) else None
      case (List(items), Index(i)) => if i < |items| then At(items[i], path[1..]) else None
      case _ => None
  }

  predicate Crosses(path: seq<Segment>, forbidden: set<string>) {
    exists i | 0 <= i < |path| :: path[i].Key? && path[i].key in forbidden
  }

  /** Nothing is reachable through a forbidden key any more, and every other path leads where it led,
      to the stripped subtree. */
  lemma {:induction false} StrippedPaths(t: Tree, forbidden: set<string>, path: seq<Segment>)
    ensures At(StripTree(t, forbidden), path) ==
            if Crosses(path, forbidden) || At(t, path).None? then None
                else Some(StripTree(At(t, path).value, forbidden))
    decreases |path|
  {
    if path != [] {
      var rest := path[1..];
      assert Crosses(path, forbidden) <==> (path[0].Key? && path[0].key in forbidden) || Crosses(rest, forbidden) by {
        assert forall i | 0 <= i < |rest| :: rest[i] == path[i + 1];
        assert forall i | 0 < i < |path| :: path[i] == rest[i - 1];
      }
      match (t, path[0]) {
        case (Dict(entries), Key(k)) => if k in entries { StrippedPaths(entries[k], forbidden, rest); }
        case (List(items), Index(i)) => if i < |items| { StrippedPaths(items[i], forbidden, rest); }
        case _ =>
      }
    }
  }

  lemma {:induction false} StripTreeIsIdempotent(t: Tree, forbidden: set<string>)
    ensures StripTree(StripTree(t, forbidden), forbidden) == StripTree(t, forbidden)
  {
    match t {
      case Leaf(_) =>
      case Dict(entries) =>
        forall k | k in entries ensures StripTree(StripTree(entries[k], forbidden), forbidden) ==
            StripTree(entries[k], forbidden) {
          StripTreeIsIdempotent(entries[k], forbidden);
        }
      case List(items) =>
        forall i | 0 <= i < |items| ensures StripTree(StripTree(items[i], forbidden), forbidden) ==
            StripTree(items[i], forbidden) {
          StripTreeIsIdempotent(items[i], forbidden);
        }
    }
  }

  // ---------------------------------------------------------------- from the heap to the tree

  lemma SameDict(entries: map<string, Tree>, entries': map<string, Tree>)
    requires entries.Keys == entries'.Keys && forall k | k in entries :: entries[k] == entries'[k]
    ensures entries == entries'
  {
  }

  /** A value whose reach was stripped stands for the stripped tree, shared or not. */
  lemma {:induction false} StrippedContents(h: Heap, rank: Rank, forbidden: set<string>, s: set<Ref>, v: Value)
    requires Ranked(h, rank) && InHeap(h, v) && Reach(h, rank, forbidden, v) <= s
    requires Ranked(Strip(h, forbidden, s), rank) && InHeap(Strip(h, forbidden, s), v)
    ensures Contents(Strip(h, forbidden, s), rank, v) == StripTree(Contents(h, rank, v), forbidden)
    decreases rank(v)
  {
    var h' := Strip(h, forbidden, s);
    match v {
      case Atom(_) =>
      case DictRef(r) =>
        assert r in s;
        forall k | k in h.dicts[r] && k !in forbidden
          ensures Contents(h', rank, h'.dicts[r][k]) == StripTree(Contents(h, rank, h.dicts[r][k]), forbidden)
        {
          assert Reach(h, rank, forbidden, h.dicts[r][k]) <= Reach(h, rank, forbidden, v);
          StrippedContents(h, rank, forbidden, s, h.dicts[r][k]);
        }
        SameDict(Contents(h', rank, v).entries, StripTree(Contents(h, rank, v), forbidden).entries);
      case ListRef(r) =>
        forall i | 0 <= i < |h.lists[r]|
          ensures Contents(h', rank, h'.lists[r][i]) == StripTree(Contents(h, rank, h.lists[r][i]), forbidden)
        {
          assert Reach(h, rank, forbidden, h.lists[r][i]) <= Reach(h, rank, forbidden, v);
          StrippedContents(h, rank, forbidden, s, h.lists[r][i]);
        }
    }
  }

  lemma ReachOfMember(h: Heap, rank: Rank, forbidden: set<string>, r: Ref, k: string)
    requires Ranked(h, rank) && r in h.dicts && k in h.dicts[r] && k !in forbidden
    ensures r in Reach(h, rank, forbidden, DictRef(r))
    ensures Reach(h, rank, forbidden, h.dicts[r][k]) <= Reach(h, rank, forbidden, DictRef(r))
  {
  }

  /** A value that shares no dict with what was stripped is untouched. */
  lemma {:induction false} UntouchedContents(h: Heap, rank: Rank, forbidden: set<string>, s: set<Ref>, v: Value)
    requires Ranked(h, rank) && InHeap(h, v) && Reach(h, rank, {}, v) !! s
    requires Ranked(Strip(h, forbidden, s), rank) && InHeap(Strip(h, forbidden, s), v)
    ensures Contents(Strip(h, forbidden, s), rank, v) == Contents(h, rank, v)
    decreases rank(v)
  {
    var h' := Strip(h, forbidden, s);
    match v {
      case Atom(_) =>
      case DictRef(r) =>
        assert r in Reach(h, rank, {}, v);
        forall k | k in h.dicts[r] ensures Contents(h', rank, h'.dicts[r][k]) == Contents(h, rank, h.dicts[r][k]) {
          ReachOfMember(h, rank, {}, r, k);
          UntouchedContents(h, rank, forbidden, s, h.dicts[r][k]);
        }
        SameDict(Contents(h', rank, v).entries, Contents(h, rank, v).entries);
      case ListRef(r) =>
        forall i | 0 <= i < |h.lists[r]| ensures Contents(h', rank, h'.lists[r][i]) ==
            Contents(h, rank, h.lists[r][i]) {
          assert Reach(h, rank, {}, h.lists[r][i]) <= Reach(h, rank, {}, v);
          UntouchedContents(h, rank, forbidden, s, h.lists[r][i]);
        }
    }
  }

  // ---------------------------------------------------------------- the whole body

  /** A body's tree after filtering. */
  function FilterTree(entries: map<string, Tree>, f: Filter): Tree {
    Dict(map k | k in entries && k !in f.forbidden ::
           if k in f.recursive then StripTree(entries[k], f.forbidden)
           else if k in f.shallow && entries[k].Dict? then Dict(entries[k].entries - f.forbidden)
           else entries[k])
  }

  /** The members that are to be kept as they are share no dict with the ones that are stripped, as in
      any body decoded from JSON text. */
  ghost predicate Unshared(h: Heap, rank: Rank, f: Filter, body: Ref)
    requires Ranked(h, rank) && body in h.dicts
  {
    forall k | k in h.dicts[body] && k !in f.forbidden && k !in f.recursive ::
      var v := h.dicts[body][k];
      if k in f.shallow && v.DictRef? then
        forall c | c in h.dicts[v.r] && c !in f.forbidden ::
            Reach(h, rank, {}, h.dicts[v.r][c]) !! Touched(h, rank, f, body)
      else Reach(h, rank, {}, v) !! Touched(h, rank, f, body)
  }

  lemma StripStaysRanked(h: Heap, rank: Rank, forbidden: set<string>, s: set<Ref>)
    requires Ranked(h, rank)
    ensures Ranked(Strip(h, forbidden, s), rank)
    ensures forall v :: InHeap(Strip(h, forbidden, s), v) <==> InHeap(h, v)
  {
    StripIsThinner(h, forbidden, s);
    ThinnerIsRanked(h, Strip(h, forbidden, s), forbidden, rank);
  }

  /** A stripped dict whose members share nothing with what was stripped loses its own keys only. */
  lemma ShallowContents(h: Heap, rank: Rank, forbidden: set<string>, s: set<Ref>, r: Ref)
    requires Ranked(h, rank) && r in h.dicts && r in s
    requires Ranked(Strip(h, forbidden, s), rank) && forall v :: InHeap(Strip(h, forbidden, s), v) <==> InHeap(h, v)
    requires forall c | c in h.dicts[r] && c !in forbidden :: Reach(h, rank, {}, h.dicts[r][c]) !! s
    ensures Contents(Strip(h, forbidden, s), rank, DictRef(r)) ==
        Dict(Contents(h, rank, DictRef(r)).entries - forbidden)
  {
    var h' := Strip(h, forbidden, s);
    forall c | c in h.dicts[r] && c !in forbidden
      ensures Contents(h', rank, h.dicts[r][c]) == Contents(h, rank, h.dicts[r][c])
    {
      UntouchedContents(h, rank, forbidden, s, h.dicts[r][c]);
    }
    SameDict(Contents(h', rank, DictRef(r)).entries, Contents(h, rank, DictRef(r)).entries - forbidden);
  }

  /** One surviving member of the body. */
  lemma MemberContents(h: Heap, rank: Rank, f: Filter, body: Ref, k: string)
    requires Ranked(h, rank) && body in h.dicts && Unshared(h, rank, f, body)
    requires k in h.dicts[body] && k !in f.forbidden
    requires var h' := Strip(h, f.forbidden, Touched(h, rank, f, body));
             Ranked(h', rank) && forall v :: InHeap(h', v) <==> InHeap(h, v)
    ensures var h' := Strip(h, f.forbidden, Touched(h, rank, f, body));
            var before := Contents(h, rank, h.dicts[body][k]);
            Contents(h', rank, h.dicts[body][k]) ==
            if k in f.recursive then StripTree(before, f.forbidden)
            else if k in f.shallow && before.Dict? then Dict(before.entries - f.forbidden)
            else before
  {
    var s := Touched(h, rank, f, body);
    var h' := Strip(h, f.forbidden, s);
    var v := h.dicts[body][k];
    if k in f.recursive {
      assert Reach(h, rank, f.forbidden, v) <= s;
      StrippedContents(h, rank, f.forbidden, s, v);
    } else if k in f.shallow && v.DictRef? {
      assert v.r in s;
      ShallowContents(h, rank, f.forbidden, s, v.r);
    } else {
      UntouchedContents(h, rank, f.forbidden, s, v);
    }
  }

  /** For a body without sharing, what the in-place filter leaves is the filtered tree. */
  lemma FilteredBody(h: Heap, rank: Rank, f: Filter, body: Ref)
    requires Ranked(h, rank) && body in h.dicts && Unshared(h, rank, f, body)
    ensures var h' := Strip(h, f.forbidden, Touched(h, rank, f, body));
            && Ranked(h', rank) && body in h'.dicts
            && Contents(h', rank, DictRef(body)) == FilterTree(Contents(h, rank, DictRef(body)).entries, f)
  {
    var h' := Strip(h, f.forbidden, Touched(h, rank, f, body));
    StripStaysRanked(h, rank, f.forbidden, Touched(h, rank, f, body));
    forall k | k in h.dicts[body] && k !in f.forbidden
      ensures Contents(h', rank, h'.dicts[body][k]) ==
          FilterTree(Contents(h, rank, DictRef(body)).entries, f).entries[k]
    {
      MemberContents(h, rank, f, body, k);
    }
    SameDict(Contents(h', rank, DictRef(body)).entries,
        FilterTree(Contents(h, rank, DictRef(body)).entries, f).entries);
  }

  /** With or without sharing, filtering twice does what filtering once does. */
  lemma FilteringIsIdempotent(h: Heap, rank: Rank, f: Filter, body: Ref)
    requires Ranked(h, rank) && body in h.dicts
    ensures var h' := Strip(h, f.forbidden, Touched(h, rank, f, body));
            Ranked(h', rank) && body in h'.dicts && Strip(h', f.forbidden, Touched(h', rank, f, body)) == h'
  {
    var s := Touched(h, rank, f, body);
    var h' := Strip(h, f.forbidden, s);
    StripStaysRanked(h, rank, f.forbidden, s);
    StripIsThinner(h, f.forbidden, s);
    forall k | k in h.dicts[body] && k !in f.forbidden
      ensures Reach(h', rank, f.forbidden, h'.dicts[body][k]) == Reach(h, rank, f.forbidden, h.dicts[body][k])
    {
      ThinnerReachesTheSame(h, h', f.forbidden, rank, h.dicts[body][k]);
    }
    assert Touched(h', rank, f, body) == s;
    StripUnion(h, f.forbidden, s, s);
    assert s + s == s;
  }

  /** With or without sharing, no forbidden key is left in the body, in a shallow container, or in any
      dict a recursive container reaches; and dicts outside those are exactly as they were. */
  lemma NothingForbiddenIsLeft(h: Heap, rank: Rank, f: Filter, body: Ref, x: Ref)
    requires Ranked(h, rank) && body in h.dicts && x in h.dicts
    ensures var h' := Strip(h, f.forbidden, Touched(h, rank, f, body));
            && Ranked(h', rank)
            && (x == body || x in ShallowDicts(h', f, body, f.shallow)
                || x in ContainersReach(h', rank, f, body, f.recursive) ==>
                  h'.dicts[x] == h.dicts[x] - f.forbidden)
            && (x !in Touched(h, rank, f, body) ==> h'.dicts[x] == h.dicts[x])
  {
    var s := Touched(h, rank, f, body);
    var h' := Strip(h, f.forbidden, s);
    StripStaysRanked(h, rank, f.forbidden, s);
    StripIsThinner(h, f.forbidden, s);
    forall k | k in h.dicts[body] && k !in f.forbidden
      ensures Reach(h', rank, f.forbidden, h'.dicts[body][k]) == Reach(h, rank, f.forbidden, h.dicts[body][k])
    {
      ThinnerReachesTheSame(h, h', f.forbidden, rank, h.dicts[body][k]);
    }
    assert Touched(h', rank, f, body) == s;
  }
}
