/** The driver a run talks to. */
module Drivers {
  import opened Transcript
  import opened AssistantTurn
  import opened Usage
  import opened RunSpec
  import Retry

  /** The provider, wrapped by the retry decorator. It keeps its own books of what it was sent and what it did. */
  class Driver {
    const retry: Retry.RetryConfig
    /** What the provider does on the n-th call. */
    const behaviour: nat -> Retry.Provider
    var calls: nat
    /** Every request, the number of attempts each took, and what every attempt cost. */
    ghost var requests: seq<Request>
    ghost var made: seq<nat>
    ghost var attempts: seq<Charge>

    ghost predicate Valid()
      reads this
    {
      && Retry.Valid(retry) && (forall k: nat, n: nat :: 0.0 <= behaviour(k).random(n) < 1.0)
      && |requests| == |made| == calls && attempts == Retry.AttemptedAll(behaviour, made)
      && forall k :: 0 <= k < calls ==> Paired(requests[k].messages) && Retry.Makes(retry, behaviour(k), made[k])
    }

    /** This is the driver of the run, and its books are in order. */
    ghost predicate Serves(s: Setup)
      reads this
    {
      Valid() && retry == s.config.retry && behaviour == s.world.driver
    }

    constructor (retry: Retry.RetryConfig, behaviour: nat -> Retry.Provider)
      requires Retry.Valid(retry) && forall k: nat, n: nat :: 0.0 <= behaviour(k).random(n) < 1.0
      ensures Valid() && this.retry == retry && this.behaviour == behaviour && requests == [] && made == []
      ensures attempts == []
    {
      this.retry, this.behaviour, calls := retry, behaviour, 0;
      requests, made, attempts := [], [], [];
    }

    /** The books as they are once one more call is over. */
    lemma {:induction false} BooksGrow(request: Request, n: nat)
      requires Valid() && Paired(request.messages) && Retry.Makes(retry, behaviour(calls), n)
      ensures var more, counts := requests + [request], made + [n];
        && |more| == |counts| == calls + 1
        && attempts + Retry.Attempted(behaviour(calls), n) == Retry.AttemptedAll(behaviour, counts)
        && forall k :: 0 <= k < calls + 1 ==> Paired(more[k].messages) && Retry.Makes(retry, behaviour(k), counts[k])
    {
      Retry.AttemptedAllSnoc(behaviour, made, n);
    }

    /** Takes paired transcripts only. Every attempt is booked here and billed in `spent`; what comes back is the final
        one. */
    method Call(request: Request) returns (delivered: seq<Delta>, spent: Usage, ok: bool, ghost n: nat)
      requires Valid() && Paired(request.messages)
      modifies this
      ensures Valid() && requests == old(requests) + [request] && made == old(made) + [n]
      ensures Retry.Makes(retry, behaviour(old(calls)), n)
      ensures attempts == old(attempts) + Retry.Attempted(behaviour(old(calls)), n)
      ensures Booked(spent, Retry.Attempted(behaviour(old(calls)), n))
      ensures delivered == behaviour(old(calls)).attempt(n).deltas
      ensures ok == behaviour(old(calls)).attempt(n).failure.None?
    {
      var outcome, count, waits;
      spent, outcome, count, delivered, waits := Retry.CallWithRetry(retry, behaviour(calls));
      ok, n := outcome.Succeeded?, count;
      BooksGrow(request, n);
      requests, made, attempts := requests + [request], made + [n], attempts + Retry.Attempted(behaviour(calls), n);
      calls := calls + 1;
    }
  }
}
