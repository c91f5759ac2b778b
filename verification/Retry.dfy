/** The retry decorator: attempts, accounting, and bounded backoff. Durations are nanoseconds. */
module Retry {
  import opened Transcript
  import opened Usage
  import opened AssistantTurn

  const MILLISECOND := 1000000
  const SECOND := 1000000000
  const DEFAULT_ATTEMPTS := 3
  const DEFAULT_INITIAL_DELAY := 250 * MILLISECOND
  const DEFAULT_MAX_DELAY := 5 * SECOND
  const MAX_PARSED_RETRY_AFTER := 86400 * SECOND

  const MIN_INT64 := -0x8000_0000_0000_0000
  const MAX_INT64 := 0x7fff_ffff_ffff_ffff

  /** Two's-complement wrap-around of an int64 result. */
  function Wrap64(x: int): int {
    (x - MIN_INT64) % 0x1_0000_0000_0000_0000 + MIN_INT64
  }

  predicate InInt64(x: int) {
    MIN_INT64 <= x <= MAX_INT64
  }

  // ----- Retry-After -----

  /** The delay-seconds form of the header, for an already parsed int64. */
  function ParseRetryAfterSeconds(seconds: int): (delay: int)
    requires InInt64(seconds)
    ensures 0 <= delay <= MAX_PARSED_RETRY_AFTER
    ensures delay == SECOND * (if seconds < 0 then 0 else if seconds > 86400 then 86400 else seconds)
  {
    if seconds <= 0 then 0
    else if seconds > MAX_PARSED_RETRY_AFTER / SECOND then MAX_PARSED_RETRY_AFTER
    else Wrap64(seconds * SECOND)
  }

  // ----- configuration -----

  datatype RetryConfig = RetryConfig(maxAttempts: int, initialDelay: int, maxDelay: int, jitter: bool,
    respectRetryAfter: bool)

  predicate Valid(c: RetryConfig) {
    c.maxAttempts >= 1 && 0 < c.initialDelay <= c.maxDelay <= MAX_INT64
  }

  function OrDefault(x: int, default: int): int {
    if x == 0 then default else x
  }

  /** WithRetry: zero means default; `None` is a configuration error. */
  function Configured(c: RetryConfig): (r: Option<RetryConfig>)
    requires InInt64(c.initialDelay) && InInt64(c.maxDelay)
    ensures r.Some? ==> Valid(r.value)
    ensures r.None? <==>
      (|| c.maxAttempts < 0 || c.initialDelay < 0 || c.maxDelay < 0
       || OrDefault(c.maxDelay, DEFAULT_MAX_DELAY) < OrDefault(c.initialDelay, DEFAULT_INITIAL_DELAY))
  {
    var d := c.(
      maxAttempts := OrDefault(c.maxAttempts, DEFAULT_ATTEMPTS),
      initialDelay := OrDefault(c.initialDelay, DEFAULT_INITIAL_DELAY),
      maxDelay := OrDefault(c.maxDelay, DEFAULT_MAX_DELAY));
    if d.maxAttempts < 1 || d.initialDelay < 0 || d.maxDelay < 0 || d.maxDelay < d.initialDelay then None else Some(d)
  }

  // ----- backoff -----

  function Pow2(n: nat): (p: nat)
    ensures p >= 1
  {
    if n == 0 then 1 else 2 * Pow2(n - 1)
  }

  function Min(a: int, b: int): int {
    if a < b then a else b
  }

  /** The intended backoff before attempt `n + 1`. */
  function Target(c: RetryConfig, n: nat): int
    requires n >= 1
  {
    Min(c.initialDelay * Pow2(n - 1), c.maxDelay)
  }

  /** The doubling loop; `capped` is its early exit, which skips the jitter. */
  method Backoff(c: RetryConfig, attempt: nat) returns (delay: int, capped: bool)
    requires Valid(c) && attempt >= 1
    ensures 0 < delay <= c.maxDelay
    ensures delay == if attempt >= 2 && c.initialDelay * Pow2(attempt - 1) == c.maxDelay - 1 then c.maxDelay
      else Target(c, attempt)
    ensures capped ==> delay == c.maxDelay
  {
    delay, capped := c.initialDelay, false;
    var index := 1;
    while index < attempt
      invariant 1 <= index <= attempt && 0 < delay <= c.maxDelay
      invariant delay == c.initialDelay * Pow2(index - 1) && (index >= 2 ==> delay <= c.maxDelay - 2)
    {
      if delay >= c.maxDelay / 2 {
        Overshoots(c, index, attempt);
        return c.maxDelay, true;
      }
      assert 2 * delay <= c.maxDelay - 2;
      DoublingIsExact(delay);
      assert c.initialDelay * Pow2(index) == 2 * (c.initialDelay * Pow2(index - 1));
      delay := Wrap64(delay * 2);
      index := index + 1;
    }
    if delay > c.maxDelay {
      delay := c.maxDelay;
    }
  }

  lemma {:induction false} DoublingIsExact(delay: int)
    requires 0 < delay && 2 * delay <= MAX_INT64
    ensures Wrap64(delay * 2) == 2 * delay
  {}

  /** Past the half-way mark every later doubling reaches the ceiling, up to one nanosecond. */
  lemma {:induction false} Overshoots(c: RetryConfig, index: nat, attempt: nat)
    requires Valid(c) && 1 <= index < attempt && c.initialDelay * Pow2(index - 1) >= c.maxDelay / 2
    ensures c.initialDelay * Pow2(attempt - 1) >= c.maxDelay - 1
  {
    PowGrows(c.initialDelay, index, attempt - 1);
    assert c.initialDelay * Pow2(index) == 2 * (c.initialDelay * Pow2(index - 1));
  }

  lemma {:induction false} PowGrows(i: int, m: nat, n: nat)
    requires i > 0 && m <= n
    ensures i * Pow2(m) <= i * Pow2(n)
    decreases n
  {
    if m < n {
      PowGrows(i, m, n - 1);
      assert i * Pow2(n) == 2 * (i * Pow2(n - 1));
      assert i * Pow2(n - 1) > 0 by { PowPositive(i, n - 1); }
    }
  }

  lemma {:induction false} PowPositive(i: int, n: nat)
    requires i > 0
    ensures i * Pow2(n) > 0
    decreases n
  {
    if n > 0 {
      PowPositive(i, n - 1);
      assert i * Pow2(n) == 2 * (i * Pow2(n - 1));
    }
  }

  /** The wait before the next attempt. `retryAfter` is the provider's hint, `random` the jitter draw. */
  method Delay(c: RetryConfig, attempt: nat, retryAfter: int, random: real) returns (delay: int)
    requires Valid(c) && attempt >= 1 && 0.0 <= random < 1.0
    ensures 0 <= delay <= c.maxDelay
    ensures c.respectRetryAfter && retryAfter > 0 ==> delay == Min(retryAfter, c.maxDelay)
    ensures !(c.respectRetryAfter && retryAfter > 0) ==>
      Target(c, attempt) / 2 <= delay <= Target(c, attempt) + 1 && (!c.jitter ==> delay >= Target(c, attempt))
  {
    if c.respectRetryAfter && retryAfter > 0 {
      return Min(retryAfter, c.maxDelay);
    }
    var capped;
    delay, capped := Backoff(c, attempt);
    if capped {
      return;
    }
    if c.jitter {
      var half := delay / 2;
      JitterBound(half, random);
      delay := half + (random * half as real).Floor;
    }
  }

  lemma {:induction false} JitterBound(half: int, random: real)
    requires half >= 0 && 0.0 <= random < 1.0
    ensures 0 <= (random * half as real).Floor <= half
  {
    assert random * half as real <= half as real;
    assert random * half as real >= 0.0;
  }

  // ----- the loop -----

  /** One failed attempt, already classified. */
  datatype Failure = Failure(retryable: bool, status: int, retryAfter: int)

  /** What the wrapped driver does on one attempt: the deltas it delivers, the usage it reports, and how it ends. */
  datatype Attempt = Attempt(deltas: seq<Delta>, usage: Usage, failure: Option<Failure>)

  /** Everything outside the decorator's control, by attempt number. */
  datatype Provider = Provider(attempt: nat -> Attempt, random: nat -> real, notifyFails: nat -> bool,
    cancelled: nat -> bool)

  datatype CallOutcome = Succeeded | GaveUp(failure: Failure) | NotifyFailed | Cancelled | Exhausted

  predicate ShouldStop(retryable: bool, streamed: bool, attempt: int, maxAttempts: int) {
    !retryable || streamed || attempt == maxAttempts
  }

  function RecordFailed(r: RetryInfo, a: RetryAttempt): RetryInfo {
    RetryInfo(r.totalAttempts, r.failedAttempts + [a], r.wastedPrompt + a.tokens.prompt,
              r.wastedCompletion + a.tokens.completion, r.wastedTotal + a.tokens.total)
  }

  /** The token counts of attempts 1 to n. */
  function Spent(w: Provider, n: nat): seq<TokenCounts> {
    if n == 0 then [] else Spent(w, n - 1) + [w.attempt(n).usage.tokens]
  }

  function ChargeOf(w: Provider, i: nat, last: bool): (c: Charge)
    ensures c.tokens == w.attempt(i).usage.tokens && (c.Final? <==> last)
  {
    var u := w.attempt(i).usage;
    if last then Final(u.tokens, u.model, u.responseId, u.finishReason) else Interim(u.tokens)
  }

  /** What attempts 1 to n of a call cost, the n-th having ended it. */
  function Attempted(w: Provider, n: nat): (charges: seq<Charge>)
    ensures |charges| == n && forall i :: 0 <= i < n ==> charges[i] == ChargeOf(w, i + 1, i + 1 == n)
  {
    seq(n, i requires 0 <= i < n => ChargeOf(w, i + 1, i + 1 == n))
  }

  /** What every attempt of every call cost, when the k-th call takes `made[k]` of them. */
  function AttemptedAll(behaviour: nat -> Provider, made: seq<nat>): seq<Charge> {
    if made == [] then []
    else AttemptedAll(behaviour, made[..|made| - 1]) + Attempted(behaviour(|made| - 1), made[|made| - 1])
  }

  /** One more call. */
  lemma {:induction false} AttemptedAllSnoc(behaviour: nat -> Provider, made: seq<nat>, n: nat)
    ensures AttemptedAll(behaviour, made + [n]) == AttemptedAll(behaviour, made) + Attempted(behaviour(|made|), n)
  {
    assert (made + [n])[..|made|] == made;
  }

  lemma {:induction false} AttemptedSpent(w: Provider, n: nat)
    ensures TokensOf(Attempted(w, n)) == Spent(w, n)
  {
    SpentLength(w, n);
    forall i | 0 <= i < n ensures TokensOf(Attempted(w, n))[i] == Spent(w, n)[i] {
      SpentAt(w, n, i);
    }
  }

  lemma {:induction false} SpentAt(w: Provider, n: nat, i: nat)
    requires i < n
    ensures i < |Spent(w, n)| && Spent(w, n)[i] == w.attempt(i + 1).usage.tokens
    decreases n
  {
    SpentLength(w, n - 1);
    if i < n - 1 { SpentAt(w, n - 1, i); }
  }

  lemma {:induction false} AttemptedEnds(w: Provider, n: nat)
    requires n >= 1
    ensures CallOver(Attempted(w, n))
  {}

  /** The wait recorded for failed attempt `k`: none if the failure ends the call; the provider's hint, capped, if it is
      respected; the intended backoff otherwise, up to half of it taken away by jitter. */
  ghost predicate RightDelay(c: RetryConfig, w: Provider, k: nat, delay: int)
    requires k >= 1
  {
    var a := w.attempt(k);
    && a.failure.Some? && 0 <= delay <= c.maxDelay
    && if !a.failure.value.retryable || a.deltas != [] || k == c.maxAttempts then delay == 0
      else if c.respectRetryAfter && a.failure.value.retryAfter > 0
      then delay == if a.failure.value.retryAfter < c.maxDelay then a.failure.value.retryAfter else c.maxDelay
      else Target(c, k) / 2 <= delay <= Target(c, k) + 1 && (c.jitter || delay >= Target(c, k))
  }

  /** The failures recorded so far are the first `n` attempts, in order, each with the right wait. */
  ghost predicate FailuresRecorded(c: RetryConfig, w: Provider, failed: seq<RetryAttempt>, n: nat) {
    && |failed| == n
    && forall i :: 0 <= i < n ==>
        && failed[i].attempt == i + 1
        && failed[i].tokens == w.attempt(i + 1).usage.tokens
        && failed[i].streamed == (w.attempt(i + 1).deltas != [])
        && RightDelay(c, w, i + 1, failed[i].delay)
  }

  ghost predicate SoFar(c: RetryConfig, w: Provider, r: RetryInfo, n: nat) {
    && r.totalAttempts == n && FailuresRecorded(c, w, r.failedAttempts, n)
    && WastesWhatFailed(r, Spent(w, n))
  }

  lemma {:induction false} RecordOne(c: RetryConfig, w: Provider, r: RetryInfo, n: nat, a: RetryAttempt)
    requires SoFar(c, w, r, n) && a.attempt == n + 1 && a.tokens == w.attempt(n + 1).usage.tokens
    requires a.streamed == (w.attempt(n + 1).deltas != []) && RightDelay(c, w, n + 1, a.delay)
    ensures SoFar(c, w, RecordFailed(r.(totalAttempts := n + 1), a), n + 1)
  {
    var s := Spent(w, n + 1);
    assert s[..|s| - 1] == Spent(w, n);
  }

  lemma {:induction false} FailedAreSpent(c: RetryConfig, w: Provider, failed: seq<RetryAttempt>, n: nat)
    requires FailuresRecorded(c, w, failed, n)
    ensures FailedTokens(failed) == Spent(w, n)
    decreases n
  {
    if n > 0 {
      FailedAreSpent(c, w, failed[..n - 1], n - 1);
      assert FailedTokens(failed) == FailedTokens(failed[..n - 1]) + [failed[n - 1].tokens];
    }
  }

  /** The usage of a call whose first `failed` of `n` attempts failed. */
  lemma {:induction false} RetryAccounts(c: RetryConfig, w: Provider, u: Usage, failed: nat, n: nat)
    requires SoFar(c, w, u.retry.(totalAttempts := failed), failed) && u.retry.totalAttempts == n
    requires (failed == n && u.tokens == ZERO) || (n == failed + 1 && u.tokens == w.attempt(n).usage.tokens)
    ensures Accounts(u, Spent(w, n))
  {
    FailedAreSpent(c, w, u.retry.failedAttempts, failed);
    SpentLength(w, n);
    var s := Spent(w, n);
    assert n == failed + 1 ==> s[..|s| - 1] == Spent(w, failed);
    forall f ensures Conserves(u, s, f) {}
  }

  lemma {:induction false} AttemptedLabels(w: Provider, u: Usage, n: nat)
    requires n >= 1
    requires var a := w.attempt(n).usage;
      u.model == a.model && u.responseId == a.responseId && u.finishReason == a.finishReason
    ensures Labelled(u, Attempted(w, n))
  {
    var charges, k := Attempted(w, n), n - 1;
    assert charges[k] == ChargeOf(w, n, true) && forall i :: 0 <= i < k ==> charges[i].Interim?;
    assert ModelOf(charges[k]) == u.model && ResponseOf(charges[k]) == u.responseId;
  }

  lemma {:induction false} RetryBooked(c: RetryConfig, w: Provider, u: Usage, failed: nat, n: nat)
    requires n >= 1 && SoFar(c, w, u.retry.(totalAttempts := failed), failed) && u.retry.totalAttempts == n
    requires (failed == n && u.tokens == ZERO) || (n == failed + 1 && u.tokens == w.attempt(n).usage.tokens)
    requires var a := w.attempt(n).usage;
      u.model == a.model && u.responseId == a.responseId && u.finishReason == a.finishReason
    ensures Booked(u, Attempted(w, n))
  {
    RetryAccounts(c, w, u, failed, n);
    AttemptedSpent(w, n);
    AttemptedLabels(w, u, n);
    if n == failed + 1 {
      var s := Spent(w, n);
      assert s[|s| - 1] == u.tokens;
    }
  }

  function SuccessfulRetryUsage(u: Usage, retry: RetryInfo): Usage {
    u.(retry := retry)
  }

  /** The counts are cleared: those of a failed attempt are in the aggregate already. */
  function FailedRetryUsage(u: Usage, retry: RetryInfo): Usage {
    u.(tokens := ZERO, retry := retry)
  }

  lemma {:induction false} SuccessBooked(c: RetryConfig, w: Provider, retry: RetryInfo, n: nat)
    requires n >= 1 && SoFar(c, w, retry, n - 1)
    ensures Booked(SuccessfulRetryUsage(w.attempt(n).usage, retry.(totalAttempts := n)), Attempted(w, n))
  {
    var u := SuccessfulRetryUsage(w.attempt(n).usage, retry.(totalAttempts := n));
    assert u.retry.(totalAttempts := n - 1) == retry;
    RetryBooked(c, w, u, n - 1, n);
  }

  lemma {:induction false} FailureBooked(c: RetryConfig, w: Provider, retry: RetryInfo, n: nat)
    requires n >= 1 && SoFar(c, w, retry, n)
    ensures Booked(FailedRetryUsage(w.attempt(n).usage, retry), Attempted(w, n))
  {
    var u := FailedRetryUsage(w.attempt(n).usage, retry);
    assert u.retry.(totalAttempts := n) == retry;
    RetryBooked(c, w, u, n, n);
  }

  lemma {:induction false} SpentLength(w: Provider, n: nat)
    ensures |Spent(w, n)| == n
    decreases n
  {
    if n > 0 { SpentLength(w, n - 1); }
  }

  /** Behind every attempt but the last the loop waited, as long as it recorded; behind the last it waited only if that
      is where it was cancelled. */
  ghost predicate Waited(waits: seq<int>, failed: seq<RetryAttempt>, made: nat, cancelled: bool) {
    && |waits| == (if cancelled then made else made - 1) <= |failed|
    && forall i :: 0 <= i < |waits| ==> waits[i] == failed[i].delay
  }

  /** A failed attempt: classify and record it, then stop, or notify and wait. An outcome of `None` means that another
      attempt follows. */
  method AfterFailure(c: RetryConfig, w: Provider, retry: RetryInfo, attempt: nat, failure: Failure, waits: seq<int>)
    returns (retry': RetryInfo, outcome: Option<CallOutcome>, waits': seq<int>)
    requires Valid(c) && (forall n: nat :: 0.0 <= w.random(n) < 1.0) && 1 <= attempt <= c.maxAttempts
    requires SoFar(c, w, retry, attempt - 1) && w.attempt(attempt).failure == Some(failure)
    requires Waited(waits, retry.failedAttempts, attempt, false)
    ensures SoFar(c, w, retry', attempt)
    ensures Waited(waits', retry'.failedAttempts, if outcome.None? then attempt + 1 else attempt,
                   outcome == Some(Cancelled))
    ensures outcome.Some? ==> match outcome.value
      case GaveUp(f) => f == failure && ShouldStop(f.retryable, w.attempt(attempt).deltas != [], attempt, c.maxAttempts)
      case NotifyFailed => w.notifyFails(attempt)
      case Cancelled => w.cancelled(attempt)
      case _ => false
    ensures outcome.None? ==>
      && failure.retryable && w.attempt(attempt).deltas == [] && attempt < c.maxAttempts
      && !w.notifyFails(attempt) && !w.cancelled(attempt)
  {
    var result := w.attempt(attempt);
    var streamed := result.deltas != [];
    var stop := ShouldStop(failure.retryable, streamed, attempt, c.maxAttempts);
    var delay := Delay(c, attempt, failure.retryAfter, w.random(attempt));
    if stop {
      delay := 0;
    }
    var failed := RetryAttempt(attempt, failure.status, delay, streamed, result.usage.tokens);
    RecordOne(c, w, retry, attempt - 1, failed);
    retry', waits' := RecordFailed(retry.(totalAttempts := attempt), failed), waits;
    if stop {
      return retry', Some(GaveUp(failure)), waits;
    }
    if w.notifyFails(attempt) {
      return retry', Some(NotifyFailed), waits;
    }
    waits' := waits + [delay];
    outcome := if w.cancelled(attempt) then Some(Cancelled) else None;
  }

  /** Attempt `k` failed without delivering anything, was worth retrying, and nothing kept the loop from going on. */
  ghost predicate QuietFailure(w: Provider, k: nat) {
    && w.attempt(k).deltas == [] && w.attempt(k).failure.Some? && w.attempt(k).failure.value.retryable
    && !w.notifyFails(k) && !w.cancelled(k)
  }

  ghost predicate QuietFailures(w: Provider, n: nat) {
    forall k :: 1 <= k < n ==> QuietFailure(w, k)
  }

  /** A call makes exactly `n` attempts: all before the last were quiet failures, and the last was not, or was the last
      allowed. */
  ghost predicate Makes(c: RetryConfig, w: Provider, n: nat) {
    1 <= n <= c.maxAttempts && QuietFailures(w, n) && (QuietFailure(w, n) ==> n == c.maxAttempts)
  }

  /** So what the driver does determines how many attempts there are. */
  lemma {:induction false} MakesIsUnique(c: RetryConfig, w: Provider, m: nat, n: nat)
    requires Makes(c, w, m) && Makes(c, w, n)
    ensures m == n
  {}

  /** callWithRetry. `made` is the number of attempts, `delivered` what reached the caller's callback, and `waits` how
      long the loop waited, each time. */
  method CallWithRetry(c: RetryConfig, w: Provider)
    returns (usage: Usage, outcome: CallOutcome, made: nat, delivered: seq<Delta>, waits: seq<int>)
    requires Valid(c) && forall n: nat :: 0.0 <= w.random(n) < 1.0
    ensures Makes(c, w, made) && delivered == w.attempt(made).deltas
    ensures match outcome
      case Succeeded => w.attempt(made).failure.None?
      case GaveUp(f) =>
        w.attempt(made).failure == Some(f) && ShouldStop(f.retryable, delivered != [], made, c.maxAttempts)
      case NotifyFailed => w.attempt(made).failure.Some? && w.notifyFails(made)
      case Cancelled => w.attempt(made).failure.Some? && w.cancelled(made)
      case Exhausted => false
    ensures Booked(usage, Attempted(w, made))
    ensures FailuresRecorded(c, w, usage.retry.failedAttempts, if outcome.Succeeded? then made - 1 else made)
    ensures usage.tokens == if outcome.Succeeded? then w.attempt(made).usage.tokens else ZERO
    ensures Waited(waits, usage.retry.failedAttempts, made, outcome.Cancelled?)
  {
    var retry := NO_RETRY;
    delivered, waits := [], [];
    for attempt := 1 to c.maxAttempts + 1
      invariant SoFar(c, w, retry, attempt - 1) && delivered == [] && QuietFailures(w, attempt)
      invariant attempt <= c.maxAttempts && Waited(waits, retry.failedAttempts, attempt, false)
    {
      var result := w.attempt(attempt);
      delivered := delivered + result.deltas;
      made := attempt;
      if result.failure.None? {
        usage := SuccessfulRetryUsage(result.usage, retry.(totalAttempts := attempt));
        SuccessBooked(c, w, retry, attempt);
        return usage, Succeeded, made, delivered, waits;
      }
      var end;
      retry, end, waits := AfterFailure(c, w, retry, attempt, result.failure.value, waits);
      if end.Some? {
        usage := FailedRetryUsage(result.usage, retry);
        FailureBooked(c, w, retry, attempt);
        return usage, end.value, made, delivered, waits;
      }
    }
    // The exhausted exit: the last permitted attempt always stops the loop from inside.
    assert false;
  }
}
