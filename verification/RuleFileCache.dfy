/** The cache in front of a rule file: reparse only when path, modification time or length changed. */
module RuleFileCache {
  import opened Wrappers

  /** What the file system says about a path: no entry, or its metadata and what reading it gives. */
  datatype Stat = Stat(modified: Option<nat>, len: nat, content: Option<string>)

  /** One catalog call: the configured path, and the state of that path at the time. */
  datatype Load = Load(path: Option<string>, stat: Option<Stat>)

  datatype LoadError = NotReadable | ReadFailed | InvalidCatalog

  type Parse<T> = string -> Option<T>

  /** Read and parse without any cache. */
  function Uncached<T>(load: Load, default: T, parse: Parse<T>): Result<T, LoadError> {
    if load.path.None? then Ok(default)
    else if load.stat.None? then Err(NotReadable)
    else if load.stat.value.content.None? then Err(ReadFailed)
    else
      var parsed := parse(load.stat.value.content.value);
      if parsed.None? then Err(InvalidCatalog) else Ok(parsed.value)
  }

  datatype Cache<T> = Cache(path: Option<string>, modified: Option<nat>, len: nat, catalog: T)

  function New<T>(default: T): Cache<T> {
    Cache(None, None, 0, default)
  }

  predicate Hit<T>(c: Cache<T>, path: string, stat: Stat) {
    c.path == Some(path) && c.modified == stat.modified && c.len == stat.len
  }

  /** `RuleFileCache::catalog`: the answer and the cache it leaves. */
  function Catalog<T>(c: Cache<T>, load: Load, default: T, parse: Parse<T>): (Result<T, LoadError>, Cache<T>) {
    if load.path.None? then
      var kept := if c.path.Some? then New(default) else c;
      (Ok(kept.catalog), kept)
    else if load.stat.None? then (Err(NotReadable), c)
    else
      var path, stat := load.path.value, load.stat.value;
      if Hit(c, path, stat) then (Ok(c.catalog), c)
      else
        var loaded := Uncached(load, default, parse);
        if loaded.Err? then (loaded, c) else (loaded, Cache(Some(path), stat.modified, stat.len, loaded.value))
  }

  class RuleFileCache<T> {
    var path: Option<string>
    var modified: Option<nat>
    var len: nat
    var catalog: T

    constructor (default: T)
      ensures View() == New(default)
    {
      path, modified, len, catalog := None, None, 0, default;
    }

    function View(): Cache<T>
      reads this
    {
      Cache(path, modified, len, catalog)
    }

    method GetCatalog(load: Load, default: T, parse: Parse<T>) returns (r: Result<T, LoadError>)
      modifies this
      ensures (r, View()) == Catalog(old(View()), load, default, parse)
    {
      if load.path.None? {
        if path.Some? { path, modified, len, catalog := None, None, 0, default; }
        return Ok(catalog);
      }
      if load.stat.None? { return Err(NotReadable); }
      var stat := load.stat.value;
      if path == load.path && modified == stat.modified && len == stat.len { return Ok(catalog); }
      if stat.content.None? { return Err(ReadFailed); }
      var parsed := parse(stat.content.value);
      if parsed.None? { return Err(InvalidCatalog); }
      path, modified, len, catalog := load.path, stat.modified, stat.len, parsed.value;
      return Ok(parsed.value);
    }
  }

  // ---------------------------------------------------------------- whole runs

  /** Over the run, path, modification time and length determine what reading the file gives. */
  ghost predicate Determined(loads: seq<Load>) {
    forall i, j | 0 <= i < |loads| && 0 <= j < |loads| :: SameFile(loads[i], loads[j]) ==>
        loads[i].stat.value.content == loads[j].stat.value.content
  }

  predicate SameFile(a: Load, b: Load) {
    && a.path.Some? && a.path == b.path && a.stat.Some? && b.stat.Some?
    && a.stat.value.modified == b.stat.value.modified && a.stat.value.len == b.stat.value.len
  }

  function CacheAfter<T>(loads: seq<Load>, default: T, parse: Parse<T>): Cache<T> {
    if loads == [] then New(default)
    else Catalog(CacheAfter(loads[..|loads| - 1], default, parse), loads[|loads| - 1], default, parse).1
  }

  /** The cache holds the default, or what an earlier load of the file it names parsed to. */
  ghost predicate Backed<T>(c: Cache<T>, loads: seq<Load>, default: T, parse: Parse<T>) {
    if c.path.None? then c.catalog == default
    else exists i :: BackedBy(c, loads, i, default, parse)
  }

  ghost predicate BackedBy<T>(c: Cache<T>, loads: seq<Load>, i: int, default: T, parse: Parse<T>) {
    && 0 <= i < |loads| && loads[i].path == c.path && loads[i].path.Some? && loads[i].stat.Some?
    && Hit(c, loads[i].path.value, loads[i].stat.value)
    && Uncached(loads[i], default, parse) == Ok(c.catalog)
  }

  lemma {:induction false} CacheIsBacked<T>(loads: seq<Load>, default: T, parse: Parse<T>)
    ensures Backed(CacheAfter(loads, default, parse), loads, default, parse)
  {
    if loads != [] {
      var n := |loads| - 1;
      var front := loads[..n];
      CacheIsBacked(front, default, parse);
      var before, after := CacheAfter(front, default, parse), CacheAfter(loads, default, parse);
      if after == before {
        if before.path.Some? {
          var i :| BackedBy(before, front, i, default, parse);
          assert BackedBy(after, loads, i, default, parse);
        }
      } else if after.path.Some? {
        assert BackedBy(after, loads, n, default, parse);
      }
    }
  }

  /** With files determined by path, time and length, the cached call answers as an uncached
      read-and-parse does, on every call of every run. */
  lemma CachedIsUncached<T>(loads: seq<Load>, load: Load, default: T, parse: Parse<T>)
    requires Determined(loads + [load])
    ensures Catalog(CacheAfter(loads, default, parse), load, default, parse).0 == Uncached(load, default, parse)
  {
    var c := CacheAfter(loads, default, parse);
    CacheIsBacked(loads, default, parse);
    if load.path.Some? && load.stat.Some? && Hit(c, load.path.value, load.stat.value) {
      var i :| BackedBy(c, loads, i, default, parse);
      var all := loads + [load];
      assert all[i] == loads[i] && all[|loads|] == load && SameFile(all[i], all[|loads|]);
    }
  }

  /** The load that last filled the entry, if it is filled. */
  function LastFill<T>(loads: seq<Load>, default: T, parse: Parse<T>): Option<nat> {
    if loads == [] then None
    else
      var n := |loads| - 1;
      var front, load := loads[..n], loads[n];
      if load.path.None? then None
      else if Fills(CacheAfter(front, default, parse), load, default, parse) then Some(n)
      else LastFill(front, default, parse)
  }

  /** The file is read anew, and its catalog kept. */
  predicate Fills<T>(c: Cache<T>, load: Load, default: T, parse: Parse<T>)
    requires load.path.Some?
  {
    load.stat.Some? && !Hit(c, load.path.value, load.stat.value) && Uncached(load, default, parse).Ok?
  }

  lemma {:induction false} LastFillBacks<T>(loads: seq<Load>, default: T, parse: Parse<T>)
    ensures var c, i := CacheAfter(loads, default, parse), LastFill(loads, default, parse);
            && (i.Some? <==> c.path.Some?)
            && (i.Some? ==> BackedBy(c, loads, i.value, default, parse))
  {
    if loads != [] {
      var n := |loads| - 1;
      LastFillBacks(loads[..n], default, parse);
    }
  }

  /** In every run, whatever the files do: the answer differs from what reading the file would give iff
      the load that last filled the entry was of the same path, with the same time and length, and
      parsed to something else. */
  lemma StaleIff<T>(loads: seq<Load>, load: Load, default: T, parse: Parse<T>)
    ensures Catalog(CacheAfter(loads, default, parse), load, default, parse).0 != Uncached(load, default, parse) <==>
              var i := LastFill(loads, default, parse);
              && i.Some? && i.value < |loads| && SameFile(loads[i.value], load)
              && Uncached(loads[i.value], default, parse) != Uncached(load, default, parse)
  {
    LastFillBacks(loads, default, parse);
    NoPathIsNew(loads, default, parse);
  }

  /** A file rewritten within its time stamp's resolution, with the same length, is answered stale. */
  lemma StaleIsReached()
    ensures var path, parse := Some("rules.json"), (text: string) => Some(text);
            var loads := [Load(path, Some(Stat(Some(7), 1, Some("a"))))];
            var load := Load(path, Some(Stat(Some(7), 1, Some("b"))));
            Catalog(CacheAfter(loads, "", parse), load, "", parse).0 == Ok("a")
            && Uncached(load, "", parse) == Ok("b")
  {
    var path, parse := Some("rules.json"), (text: string) => Some(text);
    var first := Load(path, Some(Stat(Some(7), 1, Some("a"))));
    assert [first][..0] == [];
    assert CacheAfter([first], "", parse) == Cache(path, Some(7), 1, "a");
  }

  /** A failed load leaves the cache as it was; taking the path away brings the default back. */
  lemma FailuresAndRemoval<T>(loads: seq<Load>, load: Load, default: T, parse: Parse<T>)
    ensures (&& Uncached(load, default, parse).Err?
             && Catalog(CacheAfter(loads, default, parse), load, default, parse).0.Err?) ==>
              CacheAfter(loads + [load], default, parse) == CacheAfter(loads, default, parse)
    ensures load.path.None? ==>
              && CacheAfter(loads + [load], default, parse) == New(default)
              && Catalog(CacheAfter(loads, default, parse), load, default, parse).0 == Ok(default)
  {
    assert (loads + [load])[..|loads|] == loads;
    NoPathIsNew(loads, default, parse);
  }

  lemma {:induction false} NoPathIsNew<T>(loads: seq<Load>, default: T, parse: Parse<T>)
    ensures var c := CacheAfter(loads, default, parse); c.path.None? ==> c == New(default)
  {
    if loads != [] { NoPathIsNew(loads[..|loads| - 1], default, parse); }
  }

  // ---------------------------------------------------------------- several caches in order

  /** One rule file: its embedded default and its parser. */
  datatype Slot<T> = Slot(default: T, parse: Parse<T>)

  /** `ContextRulesCache::catalogs`: the files are asked in order, and the first failure ends the call,
      leaving the later caches untouched. */
  function Catalogs<T>(caches: seq<Cache<T>>, loads: seq<Load>, slots: seq<Slot<T>>): (Result<seq<T>, LoadError>,
      seq<Cache<T>>)
    requires |caches| == |loads| == |slots|
  {
    if caches == [] then (Ok([]), [])
    else
      var (first, cache) := Catalog(caches[0], loads[0], slots[0].default, slots[0].parse);
      if first.Err? then (Err(first.error), [cache] + caches[1..])
      else
        var (rest, others) := Catalogs(caches[1..], loads[1..], slots[1..]);
        (if rest.Err? then rest else Ok([first.value] + rest.value), [cache] + others)
  }

  function UncachedAll<T>(loads: seq<Load>, slots: seq<Slot<T>>): Result<seq<T>, LoadError>
    requires |loads| == |slots|
  {
    if loads == [] then Ok([])
    else
      var first := Uncached(loads[0], slots[0].default, slots[0].parse);
      if first.Err? then Err(first.error)
      else
        var rest := UncachedAll(loads[1..], slots[1..]);
        if rest.Err? then rest else Ok([first.value] + rest.value)
  }

  /** Each cache has its own history, since an early failure skips the later ones; the joint call still
      answers as reading all files would, and each cache is again what its (possibly longer) history says. */
  lemma {:induction false} CatalogsAreUncached<T>(histories: seq<seq<Load>>, loads: seq<Load>, slots: seq<Slot<T>>)
    requires |histories| == |loads| == |slots|
    requires forall k | 0 <= k < |loads| :: Determined(histories[k] + [loads[k]])
    ensures var caches :=
        seq(|histories|, k requires 0 <= k < |histories| => CacheAfter(histories[k], slots[k].default, slots[k].parse));
            var (r, after) := Catalogs(caches, loads, slots);
            && r == UncachedAll(loads, slots) && |after| == |caches|
            && forall k | 0 <= k < |caches| :: after[k] == caches[k]
                 || after[k] == CacheAfter(histories[k] + [loads[k]], slots[k].default, slots[k].parse)
  {
    var caches :=
        seq(|histories|, k requires 0 <= k < |histories| => CacheAfter(histories[k], slots[k].default, slots[k].parse));
    if histories != [] {
      CachedIsUncached(histories[0], loads[0], slots[0].default, slots[0].parse);
      assert (histories[0] + [loads[0]])[..|histories[0]|] == histories[0];
      var rest := histories[1..];
      assert forall k | 0 <= k < |rest| ::
          && rest[k] == histories[k + 1] && loads[1..][k] == loads[k + 1] && slots[1..][k] == slots[k + 1];
      CatalogsAreUncached(rest, loads[1..], slots[1..]);
      assert caches[1..] ==
          seq(|rest|, k requires 0 <= k < |rest| => CacheAfter(rest[k], slots[1..][k].default, slots[1..][k].parse));
    }
  }
}
