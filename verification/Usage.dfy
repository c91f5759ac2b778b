/** Token accounting: what one call cost, what retrying wasted, and how rounds add up. */
module Usage {
  /** Reasoning is part of Completion; the cache fields are parts of Prompt. */
  datatype TokenCounts = TokenCounts(
    prompt: int, completion: int, total: int, reasoning: int, cacheRead: int, cacheWrite: int, cacheWriteLongTtl: int)

  const ZERO := TokenCounts(0, 0, 0, 0, 0, 0, 0)

  datatype RetryAttempt = RetryAttempt(attempt: nat, status: int, delay: int, streamed: bool, tokens: TokenCounts)

  datatype RetryInfo = RetryInfo(
    totalAttempts: int, failedAttempts: seq<RetryAttempt>,
    wastedPrompt: int, wastedCompletion: int, wastedTotal: int)

  const NO_RETRY := RetryInfo(0, [], 0, 0, 0)

  datatype Usage = Usage(tokens: TokenCounts, model: string, finishReason: string, retry: RetryInfo, responseId: string)

  const NO_USAGE := Usage(ZERO, "", "", NO_RETRY, "")

  function BilledTotalTokens(u: Usage): int {
    u.tokens.total + u.retry.wastedTotal
  }

  function AddTokens(a: TokenCounts, b: TokenCounts): TokenCounts {
    TokenCounts(a.prompt + b.prompt, a.completion + b.completion, a.total + b.total, a.reasoning + b.reasoning,
                a.cacheRead + b.cacheRead, a.cacheWrite + b.cacheWrite, a.cacheWriteLongTtl + b.cacheWriteLongTtl)
  }

  /** Model and response id keep the last nonempty value; the finish reason is always the last one. */
  function AddUsage(total: Usage, round: Usage): Usage {
    Usage(
      AddTokens(total.tokens, round.tokens),
      if round.model != "" then round.model else total.model,
      round.finishReason,
      RetryInfo(
        total.retry.totalAttempts + round.retry.totalAttempts,
        total.retry.failedAttempts + round.retry.failedAttempts,
        total.retry.wastedPrompt + round.retry.wastedPrompt,
        total.retry.wastedCompletion + round.retry.wastedCompletion,
        total.retry.wastedTotal + round.retry.wastedTotal),
      if round.responseId != "" then round.responseId else total.responseId)
  }

  // ----- the ledger -----

  /** What one attempt cost. The attempt that ends a call also says which model served it, under which response id, and
      why it stopped. */
  datatype Charge =
    | Interim(tokens: TokenCounts)
    | Final(tokens: TokenCounts, model: string, responseId: string, finishReason: string)

  datatype Field = Prompt | Completion | Total | Reasoning | CacheRead | CacheWrite | CacheWriteLongTtl

  function Get(t: TokenCounts, f: Field): int {
    match f
    case Prompt => t.prompt
    case Completion => t.completion
    case Total => t.total
    case Reasoning => t.reasoning
    case CacheRead => t.cacheRead
    case CacheWrite => t.cacheWrite
    case CacheWriteLongTtl => t.cacheWriteLongTtl
  }

  function Sum(counts: seq<TokenCounts>, f: Field): int {
    if counts == [] then 0 else Sum(counts[..|counts| - 1], f) + Get(counts[|counts| - 1], f)
  }

  function FailedTokens(failed: seq<RetryAttempt>): seq<TokenCounts> {
    seq(|failed|, i requires 0 <= i < |failed| => failed[i].tokens)
  }

  function TokensOf(charges: seq<Charge>): seq<TokenCounts> {
    seq(|charges|, i requires 0 <= i < |charges| => charges[i].tokens)
  }

  /** The documented subset relations between the fields. */
  ghost predicate Coherent(t: TokenCounts) {
    && 0 <= t.reasoning <= t.completion
    && 0 <= t.cacheRead <= t.prompt
    && 0 <= t.cacheWriteLongTtl <= t.cacheWrite <= t.prompt
  }

  ghost predicate AllCoherent(counts: seq<TokenCounts>) {
    forall i :: 0 <= i < |counts| ==> Coherent(counts[i])
  }

  /** For one field: what is billed and what the recorded failures burned are all attempts, nothing lost or counted
      twice. */
  ghost predicate Conserves(u: Usage, attempts: seq<TokenCounts>, f: Field) {
    Get(u.tokens, f) + Sum(FailedTokens(u.retry.failedAttempts), f) == Sum(attempts, f)
  }

  /** The three wasted counts are the sums over the recorded failures. */
  ghost predicate WastesWhatFailed(r: RetryInfo, failed: seq<TokenCounts>) {
    r.wastedPrompt == Sum(failed, Prompt) && r.wastedCompletion == Sum(failed, Completion)
    && r.wastedTotal == Sum(failed, Total)
  }

  /** The usage accounts for exactly the given attempts, in every field. */
  ghost predicate Accounts(u: Usage, attempts: seq<TokenCounts>) {
    && BilledTotalTokens(u) == Sum(attempts, Total)
    && u.retry.totalAttempts == |attempts|
    && WastesWhatFailed(u.retry, FailedTokens(u.retry.failedAttempts))
    && forall f :: Conserves(u, attempts, f)
  }

  /** The subset relations hold of the usage if they hold of every attempt. */
  ghost predicate KeepsSubsets(u: Usage, attempts: seq<TokenCounts>) {
    AllCoherent(attempts) ==> Coherent(u.tokens)
  }

  function ModelOf(c: Charge): string {
    if c.Final? then c.model else ""
  }

  function ResponseOf(c: Charge): string {
    if c.Final? then c.responseId else ""
  }

  /** The last name that is given at all, if any is. */
  ghost predicate LastNamed(value: string, charges: seq<Charge>, name: Charge -> string) {
    if value == "" then forall i :: 0 <= i < |charges| ==> name(charges[i]) == ""
    else
      exists i :: 0 <= i < |charges| && name(charges[i]) == value &&
        forall j :: i < j < |charges| ==> name(charges[j]) == ""
  }

  /** The reason of the last call, given or not. */
  ghost predicate LastReason(value: string, charges: seq<Charge>) {
    || (value == "" && forall i :: 0 <= i < |charges| ==> charges[i].Interim?)
    || exists i ::
        0 <= i < |charges| && charges[i].Final? && charges[i].finishReason == value &&
        forall j :: i < j < |charges| ==> charges[j].Interim?
  }

  /** Model and response id are the last ones named; the finish reason is that of the last call. */
  ghost predicate Labelled(u: Usage, charges: seq<Charge>) {
    LastNamed(u.model, charges, ModelOf) && LastNamed(u.responseId, charges, ResponseOf)
    && LastReason(u.finishReason, charges)
  }

  /** The charges of a call, or of several: the last attempt ended one. */
  ghost predicate CallOver(charges: seq<Charge>) {
    charges != [] && charges[|charges| - 1].Final?
  }

  ghost predicate Booked(u: Usage, charges: seq<Charge>) {
    Accounts(u, TokensOf(charges)) && KeepsSubsets(u, TokensOf(charges)) && Labelled(u, charges)
  }

  lemma {:induction false} SumConcat(a: seq<TokenCounts>, b: seq<TokenCounts>, f: Field)
    ensures Sum(a + b, f) == Sum(a, f) + Sum(b, f)
    decreases |b|
  {
    if b == [] {
      assert a + b == a;
    } else {
      var n, s := |b| - 1, a + b;
      SumConcat(a, b[..n], f);
      assert s[|s| - 1] == b[n] && s[..|s| - 1] == a + b[..n];
    }
  }

  lemma {:induction false} FailedConcat(g: seq<RetryAttempt>, h: seq<RetryAttempt>, f: Field)
    ensures Sum(FailedTokens(g + h), f) == Sum(FailedTokens(g), f) + Sum(FailedTokens(h), f)
  {
    assert FailedTokens(g + h) == FailedTokens(g) + FailedTokens(h);
    SumConcat(FailedTokens(g), FailedTokens(h), f);
  }

  lemma {:induction false} AllCoherentConcat(a: seq<TokenCounts>, b: seq<TokenCounts>)
    requires AllCoherent(a + b)
    ensures AllCoherent(a) && AllCoherent(b)
  {
    assert forall i :: 0 <= i < |a| ==> a[i] == (a + b)[i];
    assert forall i :: 0 <= i < |b| ==> b[i] == (a + b)[|a| + i];
  }

  /** Before the first call there is nothing to account for. */
  lemma {:induction false} NothingSpent()
    ensures Booked(NO_USAGE, [])
  {
    assert FailedTokens([]) == [] && TokensOf([]) == [];
  }

  /** Adding a round's usage adds its attempts to the ledger. */
  lemma {:induction false} AddUsageAccounts(total: Usage, round: Usage, before: seq<TokenCounts>, now: seq<TokenCounts>)
    requires Accounts(total, before) && Accounts(round, now)
    ensures Accounts(AddUsage(total, round), before + now)
  {
    forall f
      ensures Conserves(AddUsage(total, round), before + now, f)
      ensures Sum(FailedTokens(AddUsage(total, round).retry.failedAttempts), f)
        == Sum(FailedTokens(total.retry.failedAttempts), f) + Sum(FailedTokens(round.retry.failedAttempts), f)
    {
      assert Conserves(total, before, f) && Conserves(round, now, f);
      SumConcat(before, now, f);
      FailedConcat(total.retry.failedAttempts, round.retry.failedAttempts, f);
    }
    SumConcat(before, now, Total);
  }

  /** The subset relations between the fields survive accumulation. */
  lemma {:induction false} AddUsageKeepsSubsets(total: Usage, round: Usage, before: seq<TokenCounts>,
                                                now: seq<TokenCounts>)
    requires KeepsSubsets(total, before) && KeepsSubsets(round, now)
    ensures KeepsSubsets(AddUsage(total, round), before + now)
  {
    if AllCoherent(before + now) { AllCoherentConcat(before, now); }
  }

  lemma {:induction false} LastNamedConcat(value: string, value': string, a: seq<Charge>, b: seq<Charge>,
                                           name: Charge -> string)
    requires LastNamed(value, a, name) && LastNamed(value', b, name)
    ensures LastNamed(if value' != "" then value' else value, a + b, name)
  {
    var all := a + b;
    if value' != "" {
      var i :| 0 <= i < |b| && name(b[i]) == value' && forall j :: i < j < |b| ==> name(b[j]) == "";
      assert name(all[|a| + i]) == value';
    } else if value != "" {
      var i :| 0 <= i < |a| && name(a[i]) == value && forall j :: i < j < |a| ==> name(a[j]) == "";
      assert name(all[i]) == value;
    }
  }

  lemma {:induction false} LastReasonConcat(value: string, a: seq<Charge>, b: seq<Charge>)
    requires LastReason(value, b) && CallOver(b)
    ensures LastReason(value, a + b)
  {
    var i :| 0 <= i < |b| && b[i].Final? && b[i].finishReason == value && forall j :: i < j < |b| ==> b[j].Interim?;
    assert (a + b)[|a| + i] == b[i];
  }

  /** The last call to say so names the model and the response, and the last call says how the run ended. */
  lemma {:induction false} AddUsageLabels(total: Usage, round: Usage, before: seq<Charge>, now: seq<Charge>)
    requires Labelled(total, before) && Labelled(round, now) && CallOver(now)
    ensures Labelled(AddUsage(total, round), before + now)
  {
    LastNamedConcat(total.model, round.model, before, now, ModelOf);
    LastNamedConcat(total.responseId, round.responseId, before, now, ResponseOf);
    LastReasonConcat(round.finishReason, before, now);
  }

  lemma {:induction false} AddUsageBooked(total: Usage, round: Usage, before: seq<Charge>, now: seq<Charge>)
    requires Booked(total, before) && Booked(round, now) && CallOver(now)
    ensures Booked(AddUsage(total, round), before + now)
  {
    AddUsageAccounts(total, round, TokensOf(before), TokensOf(now));
    AddUsageKeepsSubsets(total, round, TokensOf(before), TokensOf(now));
    AddUsageLabels(total, round, before, now);
    TokensConcat(before, now);
    BookedBy(AddUsage(total, round), before + now, TokensOf(before) + TokensOf(now));
  }

  lemma {:induction false} TokensConcat(a: seq<Charge>, b: seq<Charge>)
    ensures TokensOf(a + b) == TokensOf(a) + TokensOf(b)
  {}

  lemma {:induction false} BookedBy(u: Usage, charges: seq<Charge>, counts: seq<TokenCounts>)
    requires counts == TokensOf(charges)
    requires Accounts(u, counts) && KeepsSubsets(u, counts) && Labelled(u, charges)
    ensures Booked(u, charges)
  {}
}
