/** The provider retry loop under two time budgets. Times are milliseconds on a clock that only
    sends and sleeps advance. */
module RetryLoop {
  import opened Wrappers

  /** The longest `Duration`, in whole milliseconds. */
  const DURATION_MAX: nat := 0xFFFF_FFFF_FFFF_FFFF * 1000 + 999

  type Duration = d: nat | d <= DURATION_MAX

  datatype Config = Config(totalDeadline: Duration, maxAttempts: nat, baseDelay: Duration, profileSeconds: Option<nat>)

  datatype AttemptError = AttemptError(errorType: string, retryable: bool, diagnostic: Option<string>)

  /** One request to the provider: how long it took and what came of it. */
  datatype Sent = Sent(took: nat, outcome: Result<string, AttemptError>)

  datatype Provider = Provider(send: (nat, nat) -> Sent, jitter: nat -> nat)

  /** Requests are cut off at their timeout; the jitter is a digest byte modulo 19. */
  ghost predicate WellBehaved(p: Provider) {
    && (forall attempt, timeout :: p.send(attempt, timeout).took <= timeout)
    && (forall attempt :: p.jitter(attempt) <= 18)
  }

  datatype RetryError =
    | DeadlineExceeded
    | ProfileBudgetExceeded
    | AttemptFailed(errorType: string)
    | ProviderUnavailable

  function Min(a: nat, b: nat): nat {
    if a <= b then a else b
  }

  /** `profile_budget_remaining`. */
  function ProfileRemaining(c: Config, elapsed: nat): Result<Option<nat>, RetryError> {
    if c.profileSeconds.None? then Ok(None)
    else
      var budget := c.profileSeconds.value * 1000;
      if budget == 0 || elapsed >= budget then Err(ProfileBudgetExceeded) else Ok(Some(budget - elapsed))
  }

  /** `openai_profile_request_timeout`. */
  function RequestTimeout(c: Config, elapsed: nat): Result<nat, RetryError> {
    if elapsed >= c.totalDeadline then Err(DeadlineExceeded)
    else
      var profile := ProfileRemaining(c, elapsed);
      if profile.Err? then Err(profile.error)
      else if profile.value.None? then Ok(c.totalDeadline - elapsed)
      else Ok(Min(profile.value.value, c.totalDeadline - elapsed))
  }

  /** base taken `times` times. */
  function Scaled(base: nat, times: nat): nat {
    if times == 0 then 0 else base + Scaled(base, times - 1)
  }

  lemma {:induction false} ScaledIsProduct(base: nat, times: nat)
    ensures Scaled(base, times) == base * times
  {
    if times > 0 { ScaledIsProduct(base, times - 1); }
  }

  lemma {:induction false} ScaledGrows(base: nat, less: nat, more: nat)
    requires less <= more
    ensures Scaled(base, less) <= Scaled(base, more)
    decreases more
  {
    if less < more { ScaledGrows(base, less, more - 1); }
  }

  /** `retry_delay`, with the attempt truncated to 32 bits and saturating arithmetic. */
  function RetryDelay(c: Config, p: Provider, attempt: nat): nat {
    Min(Min(Scaled(c.baseDelay, attempt % 0x1_0000_0000), DURATION_MAX) + p.jitter(attempt), DURATION_MAX)
  }

  /** `openai_retry_delay_exceeds_budget`. */
  function DelayExceedsBudget(c: Config, elapsed: nat, delay: nat): Result<bool, RetryError> {
    var after := Min(elapsed + delay, DURATION_MAX);
    if after >= c.totalDeadline then Ok(true)
    else if c.profileSeconds.Some? && (c.profileSeconds.value == 0 || after >= c.profileSeconds.value * 1000) then
      var profile := ProfileRemaining(c, elapsed);
      if profile.Err? then Err(profile.error) else Ok(true)
    else Ok(false)
  }

  /** The time both budgets allow. */
  function Limit(c: Config): nat {
    if c.profileSeconds.None? then c.totalDeadline else Min(c.totalDeadline, c.profileSeconds.value * 1000)
  }

  lemma TimeoutIsWhatIsLeft(c: Config, elapsed: nat)
    ensures RequestTimeout(c, elapsed).Ok? <==> elapsed < Limit(c)
    ensures elapsed < Limit(c) ==> RequestTimeout(c, elapsed).value == Limit(c) - elapsed
  {
  }

  function Sum(xs: seq<nat>): nat {
    if xs == [] then 0 else Sum(xs[..|xs| - 1]) + xs[|xs| - 1]
  }

  /** base * n * (n + 1) / 2 + 18 * n: what n sleeps can take at most. */
  function SleepBound(c: Config, n: nat): nat {
    if n == 0 then 0 else SleepBound(c, n - 1) + Scaled(c.baseDelay, n) + 18
  }

  lemma {:induction false} SleepBoundClosedForm(c: Config, n: nat)
    ensures 2 * SleepBound(c, n) == c.baseDelay * n * (n + 1) + 36 * n
  {
    if n > 0 {
      SleepBoundClosedForm(c, n - 1);
      ScaledIsProduct(c.baseDelay, n);
      StepOfClosedForm(c.baseDelay * n, n - 1);
      Swap(c.baseDelay, n - 1, n);
    }
  }

  lemma StepOfClosedForm(x: nat, m: nat)
    ensures x * m + 2 * x == x * (m + 2)
  {
  }

  lemma Swap(a: nat, b: nat, c: nat)
    ensures a * b * c == a * c * b
  {
    assert a * b * c == a * (b * c);
    assert a * c * b == a * (c * b);
  }

  /** The delay before the next attempt is the base delay times the attempt just made, and the jitter; the
      attempt wraps at 32 bits and the sum stays within the longest duration. */
  lemma DelayIs(c: Config, p: Provider, attempt: nat)
    ensures var exact := c.baseDelay * (attempt % 0x1_0000_0000) + p.jitter(attempt);
            RetryDelay(c, p, attempt) == if exact <= DURATION_MAX then exact else DURATION_MAX
  {
    ScaledIsProduct(c.baseDelay, attempt % 0x1_0000_0000);
  }

  /** Without wrap and overflow it is exactly that, and a later attempt waits longer by the base delay for
      each attempt between, up to the jitter. */
  lemma DelaysGrow(c: Config, p: Provider, attempt: nat, later: nat)
    requires WellBehaved(p) && attempt <= later < 0x1_0000_0000 && c.baseDelay * later + 18 <= DURATION_MAX
    ensures RetryDelay(c, p, attempt) == c.baseDelay * attempt + p.jitter(attempt)
    ensures RetryDelay(c, p, later) + 18 >= RetryDelay(c, p, attempt) + c.baseDelay * (later - attempt)
  {
    DelayIs(c, p, attempt);
    DelayIs(c, p, later);
    Distributes(c.baseDelay, attempt, later - attempt);
  }

  lemma Distributes(a: nat, b: nat, c: nat)
    ensures a * (b + c) == a * b + a * c && a * b <= a * (b + c)
  {
  }

  lemma DelayIsBounded(c: Config, p: Provider, attempt: nat)
    requires WellBehaved(p)
    ensures RetryDelay(c, p, attempt) <= Scaled(c.baseDelay, attempt) + 18
  {
    ScaledGrows(c.baseDelay, attempt % 0x1_0000_0000, attempt);
  }

  lemma SumAppend(xs: seq<nat>, x: nat)
    ensures Sum(xs + [x]) == Sum(xs) + x
  {
    assert (xs + [x])[..|xs|] == xs;
  }

  function Diagnostics(sends: seq<Sent>): seq<string> {
    if sends == [] then []
    else
      var last := sends[|sends| - 1].outcome;
      Diagnostics(sends[..|sends| - 1]) + if last.Err? && last.error.diagnostic.Some? then
          [last.error.diagnostic.value] else []
  }

  lemma DiagnosticsAppend(sends: seq<Sent>, s: Sent)
    ensures Diagnostics(sends + [s]) ==
            Diagnostics(sends) + if s.outcome.Err? && s.outcome.error.diagnostic.Some? then
                [s.outcome.error.diagnostic.value] else []
  {
    assert (sends + [s])[..|sends|] == sends;
  }

  /** What has been requested and slept so far, and the time it is now. */
  datatype History = History(starts: seq<nat>, sends: seq<Sent>, sleeps: seq<nat>, now: nat)

  /** The error of a request that no budget is left for. */
  function EntryError(c: Config, now: nat): RetryError {
    if now >= c.totalDeadline then DeadlineExceeded else ProfileBudgetExceeded
  }

  /** The error of a sleep that does not fit: the profile's own only when its budget is already used up. */
  function PauseError(c: Config, now: nat, delay: nat): RetryError {
    if now + delay >= c.totalDeadline || now < Limit(c) then DeadlineExceeded else ProfileBudgetExceeded
  }

  /** How the result follows from the last request made. */
  ghost predicate Explained(c: Config, p: Provider, entered: nat, h: History, r: Result<string, RetryError>) {
    var n := |h.sends|;
    match r
    case Ok(content) => n > 0 && h.sends[n - 1].outcome == Ok(content)
    case Err(ProviderUnavailable) => c.maxAttempts == 0 && n == 0
    case Err(AttemptFailed(t)) =>
      && n > 0 && h.sends[n - 1].outcome.Err? && h.sends[n - 1].outcome.error.errorType == t
      && (n == c.maxAttempts || !h.sends[n - 1].outcome.error.retryable)
    case Err(budget) =>
      // a budget ended it: already at entry, or because the next sleep would not have fitted
      if n == 0 then c.maxAttempts > 0 && entered >= Limit(c) && budget == EntryError(c, entered)
      else
        && h.sends[n - 1].outcome.Err? && h.sends[n - 1].outcome.error.retryable && n < c.maxAttempts
        && h.now + RetryDelay(c, p, n) >= Limit(c) && budget == PauseError(c, h.now, RetryDelay(c, p, n))
  }

  function NowAfter(entered: nat, starts: seq<nat>, sends: seq<Sent>, sleeps: seq<nat>): nat
    requires |starts| == |sends|
  {
    if sends == [] then entered
    else starts[|sends| - 1] + sends[|sends| - 1].took + if |sleeps| == |sends| then sleeps[|sleeps| - 1] else 0
  }

  /** Request i starts when request i - 1 and its sleep are over. */
  ghost predicate Spaced(entered: nat, starts: seq<nat>, sends: seq<Sent>, sleeps: seq<nat>) {
    && |starts| == |sends| && |sleeps| <= |sends| <= |sleeps| + 1
    && (starts != [] ==> starts[0] == entered)
    && (forall i, j | 0 <= i && j == i + 1 < |starts| :: starts[j] == starts[i] + sends[i].took + sleeps[i])
  }

  /** Request i is given exactly the time both budgets leave at its start. */
  ghost predicate Budgeted(limit: nat, p: Provider, starts: seq<nat>, sends: seq<Sent>)
    requires |starts| == |sends|
  {
    forall i | 0 <= i < |sends| :: starts[i] < limit && sends[i] == p.send(i + 1, limit - starts[i])
  }

  /** After each request but the last the loop sleeps for the delay of that attempt. */
  ghost predicate Delayed(c: Config, p: Provider, sleeps: seq<nat>) {
    forall i | 0 <= i < |sleeps| :: sleeps[i] == RetryDelay(c, p, i + 1)
  }

  ghost predicate Timeline(c: Config, p: Provider, entered: nat, h: History) {
    && Spaced(entered, h.starts, h.sends, h.sleeps)
    && Budgeted(Limit(c), p, h.starts, h.sends)
    && Delayed(c, p, h.sleeps)
    && h.now == NowAfter(entered, h.starts, h.sends, h.sleeps)
  }

  ghost predicate AllRetryable(sends: seq<Sent>) {
    forall i | 0 <= i < |sends| :: sends[i].outcome.Err? && sends[i].outcome.error.retryable
  }

  function AfterSend(h: History, sent: Sent): History {
    History(h.starts + [h.now], h.sends + [sent], h.sleeps, h.now + sent.took)
  }

  function AfterSleep(h: History, delay: nat): History {
    h.(sleeps := h.sleeps + [delay], now := h.now + delay)
  }

  lemma SpacedAfterSend(entered: nat, starts: seq<nat>, sends: seq<Sent>, sleeps: seq<nat>, sent: Sent)
    requires Spaced(entered, starts, sends, sleeps) && |sleeps| == |sends|
    ensures Spaced(entered, starts + [NowAfter(entered, starts, sends, sleeps)], sends + [sent], sleeps)
  {
  }

  lemma BudgetedAfterSend(limit: nat, p: Provider, starts: seq<nat>, sends: seq<Sent>, now: nat)
    requires |starts| == |sends| && Budgeted(limit, p, starts, sends) && now < limit
    ensures Budgeted(limit, p, starts + [now], sends + [p.send(|sends| + 1, limit - now)])
  {
  }

  lemma TimelineAfterSend(c: Config, p: Provider, entered: nat, h: History)
    requires Timeline(c, p, entered, h) && |h.sleeps| == |h.sends| && h.now < Limit(c)
    ensures Timeline(c, p, entered, AfterSend(h, p.send(|h.sends| + 1, Limit(c) - h.now)))
  {
    SpacedAfterSend(entered, h.starts, h.sends, h.sleeps, p.send(|h.sends| + 1, Limit(c) - h.now));
    BudgetedAfterSend(Limit(c), p, h.starts, h.sends, h.now);
  }

  lemma TimelineAfterSleep(c: Config, p: Provider, entered: nat, h: History)
    requires Timeline(c, p, entered, h) && |h.sends| == |h.sleeps| + 1
    ensures Timeline(c, p, entered, AfterSleep(h, RetryDelay(c, p, |h.sends|)))
  {
  }

  /** The state at the top of the loop: every request so far failed and was slept after. */
  ghost predicate Between(c: Config, p: Provider, entered: nat, h: History) {
    && Timeline(c, p, entered, h) && |h.sleeps| == |h.sends|
    && (if h.sends == [] then h.now == entered else h.now < Limit(c))
    && AllRetryable(h.sends) && Sum(h.sleeps) <= SleepBound(c, |h.sleeps|)
  }

  /** The state after a request: only the last one has not been slept after. */
  ghost predicate Sending(c: Config, p: Provider, entered: nat, h: History) {
    && Timeline(c, p, entered, h) && |h.sends| == |h.sleeps| + 1
    && h.now <= Limit(c)
    && AllRetryable(h.sends[..|h.sends| - 1]) && Sum(h.sleeps) <= SleepBound(c, |h.sleeps|)
  }

  /** The next sleep would not fit into what both budgets allow. */
  lemma DelayFitsIff(c: Config, elapsed: nat, delay: nat)
    ensures DelayExceedsBudget(c, elapsed, delay) == Ok(false) <==> elapsed + delay < Limit(c)
    ensures DelayExceedsBudget(c, elapsed, delay).Err? ==>
        DelayExceedsBudget(c, elapsed, delay).error == PauseError(c, elapsed, delay)
    ensures DelayExceedsBudget(c, elapsed, delay) == Ok(true) ==> PauseError(c, elapsed, delay) == DeadlineExceeded
  {
  }

  method SendRequest(c: Config, p: Provider, entered: nat, h: History) returns (r: Result<History, RetryError>)
    requires WellBehaved(p) && Between(c, p, entered, h)
    ensures r.Err? <==> h.now >= Limit(c)
    ensures r.Err? ==> r.error == EntryError(c, h.now)
    ensures r.Ok? ==> r.value == AfterSend(h, p.send(|h.sends| + 1, Limit(c) - h.now))
    ensures r.Ok? ==> Sending(c, p, entered, r.value)
  {
    TimeoutIsWhatIsLeft(c, h.now);
    var timeout := RequestTimeout(c, h.now);
    if timeout.Err? { return Err(timeout.error); }
    var sent := p.send(|h.sends| + 1, timeout.value);
    TimelineAfterSend(c, p, entered, h);
    assert (h.sends + [sent])[..|h.sends|] == h.sends;
    return Ok(AfterSend(h, sent));
  }

  method PlanSleep(c: Config, p: Provider, attempt: nat, now: nat) returns (r: Result<nat, RetryError>)
    ensures r.Ok? <==> now + RetryDelay(c, p, attempt) < Limit(c)
    ensures r.Ok? ==> r.value == RetryDelay(c, p, attempt)
    ensures r.Err? ==> r.error == PauseError(c, now, RetryDelay(c, p, attempt))
  {
    var delay := RetryDelay(c, p, attempt);
    DelayFitsIff(c, now, delay);
    var exceeds := DelayExceedsBudget(c, now, delay);
    if exceeds.Err? { return Err(exceeds.error); }
    if exceeds.value { return Err(DeadlineExceeded); }
    return Ok(delay);
  }

  lemma SleepsStayBounded(c: Config, p: Provider, sleeps: seq<nat>)
    requires WellBehaved(p) && Sum(sleeps) <= SleepBound(c, |sleeps|)
    ensures var delay := RetryDelay(c, p, |sleeps| + 1);
            Sum(sleeps + [delay]) <= SleepBound(c, |sleeps + [delay]|)
  {
    DelayIsBounded(c, p, |sleeps| + 1);
    SumAppend(sleeps, RetryDelay(c, p, |sleeps| + 1));
  }

  lemma SleptIsBetween(c: Config, p: Provider, entered: nat, h: History, delay: nat)
    requires WellBehaved(p) && Sending(c, p, entered, h) && delay == RetryDelay(c, p, |h.sends|)
    requires h.sends[|h.sends| - 1].outcome.Err? && h.sends[|h.sends| - 1].outcome.error.retryable
    requires h.now + delay < Limit(c)
    ensures Between(c, p, entered, AfterSleep(h, delay))
  {
    TimelineAfterSleep(c, p, entered, h);
    SleepsStayBounded(c, p, h.sleeps);
    forall i | 0 <= i < |h.sends| ensures h.sends[i].outcome.Err? && h.sends[i].outcome.error.retryable {
      if i < |h.sends| - 1 { assert h.sends[..|h.sends| - 1][i] == h.sends[i]; }
    }
  }

  /** What the loop leaves behind, however it ends. */
  ghost predicate Kept(c: Config, p: Provider, entered: nat, h: History) {
    && |h.sends| <= c.maxAttempts
    && h.now <= (if entered <= Limit(c) then Limit(c) else entered)
    && Timeline(c, p, entered, h)
    && |h.sleeps| == (if h.sends == [] then 0 else |h.sends| - 1)
    && Sum(h.sleeps) <= SleepBound(c, |h.sleeps|)
    && (h.sends != [] ==> AllRetryable(h.sends[..|h.sends| - 1]))
  }

  /** The last request failed: give up, or sleep. */
  method AfterFailure(c: Config, p: Provider, entered: nat, h: History)
    returns (ended: Option<Result<string, RetryError>>, h': History)
    requires WellBehaved(p) && Sending(c, p, entered, h) && |h.sends| <= c.maxAttempts
    requires h.sends[|h.sends| - 1].outcome.Err?
    ensures h'.sends == h.sends
    ensures ended.Some? ==> h' == h && Explained(c, p, entered, h, ended.value)
    ensures ended.None? ==> Between(c, p, entered, h') && |h.sends| < c.maxAttempts
  {
    var error := h.sends[|h.sends| - 1].outcome.error;
    if |h.sends| >= c.maxAttempts || !error.retryable { return Some(Err(AttemptFailed(error.errorType))), h; }
    var planned := PlanSleep(c, p, |h.sends|, h.now);
    if planned.Err? { return Some(Err(planned.error)), h; }
    SleptIsBetween(c, p, entered, h, planned.value);
    return None, AfterSleep(h, planned.value);
  }

  lemma SendingIsKept(c: Config, p: Provider, entered: nat, h: History)
    requires Sending(c, p, entered, h) && |h.sends| <= c.maxAttempts && entered <= Limit(c)
    ensures Kept(c, p, entered, h)
  {
  }

  lemma BetweenStart(c: Config, p: Provider, entered: nat, h: History)
    requires Between(c, p, entered, h) && h.now < Limit(c)
    ensures entered <= Limit(c)
  {
    if h.sends != [] { assert h.starts[0] == entered && h.starts[0] < Limit(c); }
  }

  lemma StoppedAtEntry(c: Config, p: Provider, entered: nat, h: History)
    requires Between(c, p, entered, h) && h.now >= Limit(c) && c.maxAttempts > 0
    ensures Kept(c, p, entered, h) && Explained(c, p, entered, h, Err(EntryError(c, h.now)))
  {
  }

  /** One iteration: a request and, when it failed and may be repeated, the sleep after it. */
  method Attempt(c: Config, p: Provider, entered: nat, h: History, failures: seq<string>)
    returns (ended: Option<Result<string, RetryError>>, h': History, failures': seq<string>)
    requires WellBehaved(p) && Between(c, p, entered, h) && |h.sends| < c.maxAttempts
    requires failures == Diagnostics(h.sends)
    ensures ended.Some? ==> Kept(c, p, entered, h') && Explained(c, p, entered, h', ended.value)
    ensures ended.None? ==> Between(c, p, entered, h') && |h'.sends| == |h.sends| + 1 < c.maxAttempts
    ensures failures' == Diagnostics(h'.sends)
  {
    failures' := failures;
    var sending := SendRequest(c, p, entered, h);
    if sending.Err? {
      StoppedAtEntry(c, p, entered, h);
      return Some(Err(sending.error)), h, failures;
    }
    h' := sending.value;
    BetweenStart(c, p, entered, h);
    SendingIsKept(c, p, entered, h');
    DiagnosticsAppend(h.sends, h'.sends[|h.sends|]);
    var outcome := h'.sends[|h.sends|].outcome;
    if outcome.Ok? { return Some(Ok(outcome.value)), h', failures; }
    if outcome.error.diagnostic.Some? { failures' := failures + [outcome.error.diagnostic.value]; }
    ended, h' := AfterFailure(c, p, entered, h');
  }

  /** `chat_completion_with_retry`, entered `entered` milliseconds after the request started. */
  method ChatWithRetry(c: Config, p: Provider, entered: nat)
    returns (r: Result<string, RetryError>, failures: seq<string>, h: History)
    requires WellBehaved(p)
    ensures Kept(c, p, entered, h) && Explained(c, p, entered, h, r)
    ensures failures == Diagnostics(h.sends)
  {
    failures, h := [], History([], [], [], entered);
    var attempt := 1;
    while attempt <= c.maxAttempts
      invariant 1 <= attempt && |h.sends| == attempt - 1
      invariant c.maxAttempts > 0 ==> |h.sends| < c.maxAttempts
      invariant c.maxAttempts == 0 ==> h.sends == []
      invariant Between(c, p, entered, h)
      invariant failures == Diagnostics(h.sends)
      decreases c.maxAttempts - attempt
    {
      var ended;
      ended, h, failures := Attempt(c, p, entered, h, failures);
      if ended.Some? { return ended.value, failures, h; }
      attempt := attempt + 1;
    }
    r := Err(ProviderUnavailable);
  }
}
