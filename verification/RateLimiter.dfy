/** The gateway's fixed-window rate limiter: one map of buckets behind a lock, with all expired
    buckets evicted on every check. Instants and durations are nanoseconds. */
module RateLimiter {
  import opened Wrappers

  datatype Bucket = Bucket(windowStart: nat, count: nat)

  datatype Decision = Decision(allowed: bool, limit: nat, remaining: nat, retryAfterSecs: nat)

  const USIZE_MAX: nat := 0xFFFF_FFFF_FFFF_FFFF
  const NANOS_PER_SEC: nat := 1_000_000_000

  /** `Instant::duration_since` and `Duration::saturating_sub`. */
  function Monus(a: nat, b: nat): nat {
    if a < b then 0 else a - b
  }

  function RetryAfter(window: nat, elapsed: nat): nat {
    var secs := Monus(window, elapsed) / NANOS_PER_SEC;
    if secs < 1 then 1 else secs
  }

  const UNLIMITED := Decision(true, 0, USIZE_MAX, 0)

  /** One fixed-window counter on its own: no map, no eviction. */
  function Count(limit: nat, window: nat, b: Option<Bucket>, now: nat): (Decision, Bucket) {
    var current := if b.None? || Monus(now, b.value.windowStart) >= window then Bucket(now, 0) else b.value;
    if current.count >= limit then
      (Decision(false, limit, 0, RetryAfter(window, Monus(now, current.windowStart))), current)
    else
      (Decision(true, limit, limit - (current.count + 1), 0), current.(count := current.count + 1))
  }

  function Evicted(buckets: map<string, Bucket>, window: nat, now: nat): map<string, Bucket> {
    map s | s in buckets && Monus(now, buckets[s].windowStart) < window :: buckets[s]
  }

  function Get(buckets: map<string, Bucket>, subject: string): Option<Bucket> {
    if subject in buckets then Some(buckets[subject]) else None
  }

  class GatewayRateLimiter {
    const maxPerWindow: nat
    const window: nat
    var buckets: map<string, Bucket>

    constructor (maxPerWindow: nat, window: nat)
      ensures this.maxPerWindow == maxPerWindow && this.window == window && buckets == map[]
    {
      this.maxPerWindow, this.window := maxPerWindow, window;
      buckets := map[];
    }

    method Check(now: nat, subject: string) returns (d: Decision)
      modifies this
      ensures maxPerWindow == 0 ==> d == UNLIMITED && buckets == old(buckets)
      ensures maxPerWindow > 0 ==>
                var counted := Count(maxPerWindow, window, Get(old(buckets), subject), now);
                d == counted.0 && buckets == Evicted(old(buckets), window, now)[subject := counted.1]
    {
      if maxPerWindow == 0 { return UNLIMITED; }
      buckets := map s | s in buckets && Monus(now, buckets[s].windowStart) < window :: buckets[s];
      if subject !in buckets { buckets := buckets[subject := Bucket(now, 0)]; }
      if Monus(now, buckets[subject].windowStart) >= window {
        buckets := buckets[subject := Bucket(now, 0)];
      }
      var bucket := buckets[subject];
      if bucket.count >= maxPerWindow {
        var elapsed := Monus(now, bucket.windowStart);
        return Decision(false, maxPerWindow, 0, RetryAfter(window, elapsed));
      }
      buckets := buckets[subject := bucket.(count := bucket.count + 1)];
      return Decision(true, maxPerWindow, Monus(maxPerWindow, bucket.count + 1), 0);
    }
  }

  // ---------------------------------------------------------------- whole runs

  datatype Call = Call(time: nat, subject: string)

  ghost predicate Monotone(calls: seq<Call>) {
    forall i, j | 0 <= i <= j < |calls| :: calls[i].time <= calls[j].time
  }

  /** The limiter's map after n checks, as its method leaves it. */
  function BucketsAfter(limit: nat, window: nat, calls: seq<Call>, n: nat): map<string, Bucket>
    requires n <= |calls|
  {
    if n == 0 then map[]
    else
      var before := BucketsAfter(limit, window, calls, n - 1);
      var c := calls[n - 1];
      Evicted(before, window, c.time)[c.subject := Count(limit, window, Get(before, c.subject), c.time).1]
  }

  function DecisionAt(limit: nat, window: nat, calls: seq<Call>, n: nat): Decision
    requires n < |calls|
  {
    Count(limit, window, Get(BucketsAfter(limit, window, calls, n), calls[n].subject), calls[n].time).0
  }

  /** The counter of one subject, fed only that subject's calls. */
  function CounterAfter(limit: nat, window: nat, calls: seq<Call>, n: nat, subject: string): Option<Bucket>
    requires n <= |calls|
  {
    if n == 0 then None
    else
      var before := CounterAfter(limit, window, calls, n - 1, subject);
      var c := calls[n - 1];
      if c.subject == subject then Some(Count(limit, window, before, c.time).1) else before
  }

  /** Where the map has no bucket, the subject's counter has none or an expired one. */
  ghost predicate Agrees(window: nat, bucket: Option<Bucket>, counter: Option<Bucket>, now: nat) {
    if bucket.Some? then counter == bucket
    else counter.Some? ==> Monus(now, counter.value.windowStart) >= window
  }

  lemma {:induction false} MapAgreesWithCounters(limit: nat, window: nat, calls: seq<Call>, n: nat, subject: string,
      now: nat)
    requires n <= |calls| && Monotone(calls)
    requires n > 0 ==> calls[n - 1].time <= now
    ensures Agrees(window, Get(BucketsAfter(limit, window, calls, n), subject),
        CounterAfter(limit, window, calls, n, subject), now)
  {
    if n > 0 { MapAgreesWithCounters(limit, window, calls, n - 1, subject, calls[n - 1].time); }
  }

  /** Evicting everybody's expired buckets on everybody's checks changes no decision: each subject is
      limited as if it had a counter of its own. */
  lemma EvictionChangesNothing(limit: nat, window: nat, calls: seq<Call>, n: nat)
    requires n < |calls| && Monotone(calls)
    ensures DecisionAt(limit, window, calls, n) ==
            Count(limit, window, CounterAfter(limit, window, calls, n, calls[n].subject), calls[n].time).0
  {
    MapAgreesWithCounters(limit, window, calls, n, calls[n].subject, calls[n].time);
  }

  /** After each check no bucket is as old as a window. */
  lemma NoStaleBuckets(limit: nat, window: nat, calls: seq<Call>, n: nat, subject: string)
    requires 0 < n <= |calls| && window > 0
    ensures var buckets := BucketsAfter(limit, window, calls, n);
            subject in buckets ==> Monus(calls[n - 1].time, buckets[subject].windowStart) < window
  {
  }

  // ---------------------------------------------------------------- windows

  /** The call that opened the subject's window, by the times of the calls alone: its first call, and then
      each first one at least a window after the last opening. */
  function Opening(window: nat, calls: seq<Call>, n: nat, subject: string): (r: Option<nat>)
    requires n <= |calls|
    ensures r.Some? ==> r.value < n && calls[r.value].subject == subject
  {
    if n == 0 then None
    else
      var before, c := Opening(window, calls, n - 1, subject), calls[n - 1];
      if c.subject == subject && (before.None? || c.time >= calls[before.value].time + window) then Some(n - 1)
      else before
  }

  /** The subject's calls among calls[from..n]. */
  function CallsIn(calls: seq<Call>, from: nat, n: nat, subject: string): nat
    requires n <= |calls|
  {
    if n <= from then 0
    else CallsIn(calls, from, n - 1, subject) + if calls[n - 1].subject == subject then 1 else 0
  }

  /** Those of them that were allowed. */
  function AllowedCalls(limit: nat, window: nat, calls: seq<Call>, from: nat, n: nat, subject: string): nat
    requires n <= |calls|
  {
    if n <= from then 0
    else
      AllowedCalls(limit, window, calls, from, n - 1, subject)
      + if calls[n - 1].subject == subject && DecisionAt(limit, window, calls, n - 1).allowed then 1 else 0
  }

  function Min(a: nat, b: nat): nat {
    if a < b then a else b
  }

  /** The subject's counter, told by its calls alone. */
  function Tally(limit: nat, window: nat, calls: seq<Call>, n: nat, subject: string): Option<Bucket>
    requires n <= |calls|
  {
    var o := Opening(window, calls, n, subject);
    if o.None? then None else Some(Bucket(calls[o.value].time, Min(limit, CallsIn(calls, o.value, n, subject))))
  }

  lemma {:induction false} CounterIsTally(limit: nat, window: nat, calls: seq<Call>, n: nat, subject: string)
    requires n <= |calls| && Monotone(calls) && limit > 0
    ensures CounterAfter(limit, window, calls, n, subject) == Tally(limit, window, calls, n, subject)
  {
    if n > 0 {
      CounterIsTally(limit, window, calls, n - 1, subject);
      assert CallsIn(calls, n - 1, n - 1, subject) == 0;
      assert n > 1 ==> calls[n - 2].time <= calls[n - 1].time;
    }
  }

  /** The subject's open window and its place there: no call since its opening came a window or more after it. */
  lemma {:induction false} OpeningMeans(window: nat, calls: seq<Call>, n: nat, subject: string)
    requires n <= |calls|
    ensures var o := Opening(window, calls, n, subject);
            && (o.None? <==> forall j | 0 <= j < n :: calls[j].subject != subject)
            && (o.Some? ==> forall j | o.value < j < n && calls[j].subject == subject ::
                  calls[j].time < calls[o.value].time + window)
  {
    if n > 0 { OpeningMeans(window, calls, n - 1, subject); }
  }

  /** The call comes less than a window after the opening. */
  ghost predicate InWindow(window: nat, calls: seq<Call>, n: nat)
    requires n < |calls|
  {
    var o := Opening(window, calls, n, calls[n].subject);
    o.Some? && calls[n].time < calls[o.value].time + window
  }

  /** Seconds left of the window, rounded down, but at least one. */
  ghost predicate IsRetryAfter(left: nat, secs: nat) {
    secs >= 1 && secs * NANOS_PER_SEC <= (if left < NANOS_PER_SEC then NANOS_PER_SEC else left)
    && left < (secs + 1) * NANOS_PER_SEC
  }

  /** A call is refused iff it comes less than a window after its subject's opening and that opening and the
      later calls are already as many as the limit: refused calls count for nothing and move no window.
      A call that is allowed is told how many are left, one that is refused how long the window lasts. */
  lemma RefusedIffWindowIsFull(limit: nat, window: nat, calls: seq<Call>, n: nat)
    requires n < |calls| && Monotone(calls) && limit > 0
    ensures var d := DecisionAt(limit, window, calls, n);
            var s := calls[n].subject;
            var o := Opening(window, calls, n, s);
            && d.limit == limit
            && (!d.allowed <==> InWindow(window, calls, n) && CallsIn(calls, o.value, n, s) >= limit)
            && (d.allowed ==>
                  && d.retryAfterSecs == 0
                  && var before := if InWindow(window, calls, n) then CallsIn(calls, o.value, n, s) else 0;
                     d.remaining == limit - 1 - before)
            && (!d.allowed ==>
                  && d.remaining == 0
                  && IsRetryAfter(calls[o.value].time + window - calls[n].time, d.retryAfterSecs))
  {
    EvictionChangesNothing(limit, window, calls, n);
    CounterIsTally(limit, window, calls, n, calls[n].subject);
  }

  /** The same, counting the allowed calls: of a window's calls the first ones, up to the limit, are allowed. */
  lemma {:induction false} AllowedAreTheFirst(limit: nat, window: nat, calls: seq<Call>, from: nat, n: nat,
      subject: string)
    requires n <= |calls| && Monotone(calls) && limit > 0
    requires from < n && Opening(window, calls, n, subject) == Some(from)
    ensures AllowedCalls(limit, window, calls, from, n, subject) == Min(limit, CallsIn(calls, from, n, subject))
    ensures DecisionAt(limit, window, calls, from).allowed
  {
    if n == from + 1 {
      RefusedIffWindowIsFull(limit, window, calls, from);
      assert CallsIn(calls, from, from, subject) == 0;
    } else {
      AllowedAreTheFirst(limit, window, calls, from, n - 1, subject);
      if calls[n - 1].subject == subject { RefusedIffWindowIsFull(limit, window, calls, n - 1); }
    }
  }

  /** A call is refused iff its subject's window opened less than one window ago and as many of its calls as
      the limit were allowed since; and windows open only at allowed calls. */
  lemma RefusedIffLimitWasAllowed(limit: nat, window: nat, calls: seq<Call>, n: nat)
    requires n < |calls| && Monotone(calls) && limit > 0
    ensures var s := calls[n].subject;
            var o := Opening(window, calls, n, s);
            && (!DecisionAt(limit, window, calls, n).allowed <==>
                  InWindow(window, calls, n) && AllowedCalls(limit, window, calls, o.value, n, s) >= limit)
            && (o.Some? ==> DecisionAt(limit, window, calls, o.value).allowed)
  {
    RefusedIffWindowIsFull(limit, window, calls, n);
    var o := Opening(window, calls, n, calls[n].subject);
    if o.Some? { AllowedAreTheFirst(limit, window, calls, o.value, n, calls[n].subject); }
  }

  /** The first call at least one window after the opening is allowed and opens the next window, whatever was
      refused in between. */
  lemma NextWindowOpens(limit: nat, window: nat, calls: seq<Call>, n: nat)
    requires n < |calls| && Monotone(calls) && limit > 0 && !InWindow(window, calls, n)
    ensures DecisionAt(limit, window, calls, n).allowed
    ensures Opening(window, calls, n + 1, calls[n].subject) == Some(n)
  {
    RefusedIffWindowIsFull(limit, window, calls, n);
  }

  // ---------------------------------------------------------------- how many get through

  /** The subject's allowed calls among the first n whose time is in [from, from + window). */
  function AllowedIn(limit: nat, window: nat, calls: seq<Call>, n: nat, subject: string, from: nat): nat
    requires n <= |calls|
  {
    if n == 0 then 0
    else
      var c := calls[n - 1];
      AllowedIn(limit, window, calls, n - 1, subject, from)
      + if c.subject == subject && from <= c.time < from + window
          && DecisionAt(limit, window, calls, n - 1).allowed then 1 else 0
  }

  /** How many allowed calls the interval can hold, given where the subject's counter stands. */
  ghost predicate WithinBound(limit: nat, window: nat, counter: Option<Bucket>, from: nat, allowed: nat) {
    match counter
    case None => allowed == 0
    case Some(Bucket(start, count)) =>
      && 1 <= count <= limit
      && if start < from then allowed <= count - 1
         else if start < from + window then allowed <= limit - 1 + count
         else allowed <= 2 * limit - 1
  }

  lemma {:induction false} BoundIsKept(limit: nat, window: nat, calls: seq<Call>, n: nat, subject: string, from: nat)
    requires n <= |calls| && Monotone(calls) && limit > 0
    ensures WithinBound(limit, window, CounterAfter(limit, window, calls, n, subject), from,
                        AllowedIn(limit, window, calls, n, subject, from))
    ensures n > 0 ==> var counter := CounterAfter(limit, window, calls, n, subject);
                      counter.Some? ==> counter.value.windowStart <= calls[n - 1].time
    ensures n > 0 && calls[n - 1].time < from ==> AllowedIn(limit, window, calls, n, subject, from) == 0
  {
    if n > 0 {
      BoundIsKept(limit, window, calls, n - 1, subject, from);
      assert n > 1 ==> calls[n - 2].time <= calls[n - 1].time;
      if calls[n - 1].subject == subject { EvictionChangesNothing(limit, window, calls, n - 1); }
    }
  }

  /** In any half-open interval of one window length a subject gets fewer than 2 * limit calls
      through: the call that opens a window lies outside every interval that reaches the next one. */
  lemma FewerThanTwiceTheLimit(limit: nat, window: nat, calls: seq<Call>, subject: string, from: nat)
    requires Monotone(calls) && limit > 0
    ensures AllowedIn(limit, window, calls, |calls|, subject, from) < 2 * limit
  {
    BoundIsKept(limit, window, calls, |calls|, subject, from);
  }

  /** One call at 0, the rest of a window's worth just before it ends, and a second window's worth at once. */
  function Burst(limit: nat, window: nat, subject: string): seq<Call>
    requires window > 1
  {
    seq(2 * limit, i requires 0 <= i => Call(BurstTime(limit, window, i), subject))
  }

  function BurstTime(limit: nat, window: nat, i: nat): nat
    requires window > 1
  {
    if i == 0 then 0 else if i < limit then window - 1 else window
  }

  function BurstCounter(limit: nat, window: nat, n: nat): Option<Bucket> {
    if n == 0 then None else if n <= limit then Some(Bucket(0, n)) else Some(Bucket(window, n - limit))
  }

  lemma BurstStep(limit: nat, window: nat, n: nat)
    requires window > 1 && limit > 0 && n < 2 * limit
    ensures var r := Count(limit, window, BurstCounter(limit, window, n), BurstTime(limit, window, n));
            r.0.allowed && Some(r.1) == BurstCounter(limit, window, n + 1)
  {
  }

  lemma {:induction false} BurstCounts(limit: nat, window: nat, subject: string, n: nat)
    requires window > 1 && limit > 0 && n <= 2 * limit && Monotone(Burst(limit, window, subject))
    ensures var calls := Burst(limit, window, subject);
            && CounterAfter(limit, window, calls, n, subject) == BurstCounter(limit, window, n)
            && AllowedIn(limit, window, calls, n, subject, window - 1) == if n == 0 then 0 else n - 1
  {
    if n > 0 {
      BurstCounts(limit, window, subject, n - 1);
      BurstStep(limit, window, n - 1);
      EvictionChangesNothing(limit, window, Burst(limit, window, subject), n - 1);
    }
  }

  /** The bound is attained, for every limit and every window longer than one tick. */
  lemma BoundIsAttained(limit: nat, window: nat, subject: string)
    requires window > 1 && limit > 0
    ensures var calls := Burst(limit, window, subject);
            Monotone(calls) && AllowedIn(limit, window, calls, |calls|, subject, window - 1) == 2 * limit - 1
  {
    BurstCounts(limit, window, subject, 2 * limit);
  }
}
