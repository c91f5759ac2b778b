/** What compaction may remove, stated over roles, origins and calls alone, and that the code's own notions of a pin,
    of a unit and of the middle of an exchange mean exactly this. */
module Eviction {
  import opened Transcript
  import opened Compaction

  ghost predicate UserSpeaks(m: Message) {
    m.role.User? && !m.origin.Injected?
  }

  ghost predicate ModelSpeaks(m: Message) {
    m.role.Assistant? && !m.origin.Injected?
  }

  ghost predicate SystemFront(ms: seq<Message>) {
    ms != [] && ms[0].role.System? && ms[0].injection.None?
  }

  /** `h` carries the newest calls, no user has spoken since, and up to `i` there are only results behind it. */
  ghost predicate StillOpen(ms: seq<Message>, h: nat, i: nat) {
    && h <= i < |ms| && ms[h].toolCalls != []
    && (forall j :: h < j < |ms| ==> ms[j].toolCalls == [] && !UserSpeaks(ms[j]))
    && (forall j :: h < j <= i ==> ms[j].role.Tool?)
  }

  /** What must survive: the system prompt, an injection the model has not answered yet, the newest user turn, and the
      exchange in flight. */
  ghost predicate Protected(ms: seq<Message>, i: nat)
    requires i < |ms|
  {
    || (i == 0 && SystemFront(ms))
    || (ms[i].origin.Injected? && forall j :: i < j < |ms| ==> !ModelSpeaks(ms[j]))
    || (UserSpeaks(ms[i]) && forall j :: i < j < |ms| ==> !UserSpeaks(ms[j]))
    || exists h: nat {:trigger StillOpen(ms, h, i)} :: StillOpen(ms, h, i)
  }

  ghost predicate AllProtected(ms: seq<Message>) {
    forall i {:trigger Protected(ms, i)} :: 0 <= i < |ms| ==> Protected(ms, i)
  }

  /** A message without calls, or one with calls and every result behind it. */
  ghost predicate OneUnit(ms: seq<Message>, i: nat, e: nat) {
    && i < e <= |ms| && (ms[i].toolCalls == [] ==> e == i + 1)
    && (ms[i].toolCalls != [] ==> (forall j :: i < j < e ==> ms[j].role.Tool?) && (e < |ms| ==> !ms[e].role.Tool?))
  }

  /** The unit from `i` to `e` is the one to go: everything in front of it is protected. */
  ghost predicate Oldest(ms: seq<Message>, i: nat, e: nat) {
    OneUnit(ms, i, e) && !Protected(ms, i) && forall j {:trigger Protected(ms, j)} :: 0 <= j < i ==> Protected(ms, j)
  }

  ghost predicate DropsOldest(ms: seq<Message>, out: seq<Message>) {
    exists i: nat, e: nat {:trigger Oldest(ms, i, e)} :: Oldest(ms, i, e) && out == ms[..i] + ms[e..]
  }

  /** Behind the system prompt comes a user turn, or something that had to stay. */
  ghost predicate OpensExchange(ms: seq<Message>) {
    var front := if SystemFront(ms) then 1 else 0;
    front < |ms| ==> UserSpeaks(ms[front]) || Protected(ms, front)
  }

  ghost predicate WithinBudget(ms: seq<Message>, tools: seq<Tool>, counter: Counter, budget: int) {
    Count(counter, ms, tools).Some? && Count(counter, ms, tools).value <= budget
  }

  /** Nothing more can or need be done. */
  ghost predicate AtRest(ms: seq<Message>, tools: seq<Tool>, counter: Counter, budget: int) {
    |ms| <= 1 || AllProtected(ms) || WithinBudget(ms, tools, counter, budget)
  }

  ghost predicate DropsAt(trace: seq<seq<Message>>, k: nat)
    requires k + 1 < |trace|
  {
    DropsOldest(trace[k], trace[k + 1])
  }

  /** From one transcript to the other by dropping oldest units, one at a time. */
  ghost predicate Evictions(trace: seq<seq<Message>>, ms: seq<Message>, out: seq<Message>) {
    && trace != [] && trace[0] == ms && trace[|trace| - 1] == out
    && forall k {:trigger DropsAt(trace, k)} :: 0 <= k < |trace| - 1 ==> DropsAt(trace, k)
  }

  /** A further drop is called for: over budget, or, once `any` went, because no exchange opens the transcript. */
  ghost predicate MustDrop(ms: seq<Message>, any: bool, tools: seq<Tool>, counter: Counter, budget: int) {
    |ms| > 1 && (!WithinBudget(ms, tools, counter, budget) || (any && !OpensExchange(ms)))
  }

  /** No drop was in vain, and none that was called for and possible is missing. */
  ghost predicate Needed(trace: seq<seq<Message>>, any: bool, tools: seq<Tool>, counter: Counter, budget: int)
    requires trace != []
  {
    && (forall k {:trigger DropsAt(trace, k)} :: 0 <= k < |trace| - 1 ==>
          MustDrop(trace[k], any || k > 0, tools, counter, budget))
    && var out := trace[|trace| - 1];
      MustDrop(out, any || |trace| > 1, tools, counter, budget) ==> AllProtected(out)
  }

  lemma {:induction false} LiveIsStillOpen(ms: seq<Message>, i: nat)
    requires i < |ms|
    ensures Live(ms, i) <==> exists h: nat {:trigger StillOpen(ms, h, i)} :: StillOpen(ms, h, i)
  {
    LastIsLast(Caller, ms);
    LastIsLast(UserTurn, ms);
    var caller := Last(Caller, ms);
    if caller >= 0 { RunEndIsEnd(ms, caller + 1); }
    if Live(ms, i) {
      assert forall j :: caller < j < |ms| ==> !Is(Caller, ms[j]) && !Is(UserTurn, ms[j]);
      assert StillOpen(ms, caller, i);
    }
    if h: nat :| StillOpen(ms, h, i) {
      assert forall j :: h < j < |ms| ==> !Is(Caller, ms[j]) && !Is(UserTurn, ms[j]);
      LastUnique(Caller, ms, h);
    }
  }

  /** The four tests of the scan protect exactly what must survive. */
  lemma {:induction false} PinnedIsProtected(ms: seq<Message>, i: nat)
    requires i < |ms|
    ensures Pinned(ms, i) <==> Protected(ms, i)
  {
    LiveIsStillOpen(ms, i);
    LastIsLast(ModelTurn, ms);
    LastIsLast(UserTurn, ms);
    if ms[i].origin.Injected? && forall j :: i < j < |ms| ==> !ModelSpeaks(ms[j]) {
      assert Last(ModelTurn, ms) >= i ==> Is(ModelTurn, ms[Last(ModelTurn, ms)]);
    }
    if i > Last(ModelTurn, ms) {
      assert forall j :: i < j < |ms| ==> !Is(ModelTurn, ms[j]);
    }
    if UserSpeaks(ms[i]) && forall j :: i < j < |ms| ==> !UserSpeaks(ms[j]) {
      assert forall j :: i < j < |ms| ==> !Is(UserTurn, ms[j]);
      LastUnique(UserTurn, ms, i);
    }
    if i == Last(UserTurn, ms) {
      assert forall j :: i < j < |ms| ==> !Is(UserTurn, ms[j]);
    }
  }

  /** Nothing is droppable exactly when everything must survive. */
  lemma {:induction false} NoneDroppable(ms: seq<Message>)
    ensures FirstDroppable(ms) < 0 <==> AllProtected(ms)
  {
    DroppableFromIsFirst(ms, 0);
    forall i | 0 <= i < |ms| ensures Pinned(ms, i) <==> Protected(ms, i) { PinnedIsProtected(ms, i); }
  }

  /** A drop removes the oldest unit that need not survive, and nothing else. */
  lemma {:induction false} DropIsOldest(ms: seq<Message>)
    requires FirstDroppable(ms) >= 0
    ensures DropsOldest(ms, DropFirst(ms))
  {
    var i := FirstDroppable(ms);
    DroppableFromIsFirst(ms, 0);
    forall j | 0 <= j <= i ensures Pinned(ms, j) <==> Protected(ms, j) { PinnedIsProtected(ms, j); }
    RunEndIsEnd(ms, i + 1);
    assert Oldest(ms, i, UnitEnd(ms, i));
  }

  /** There is at most one such drop. */
  lemma {:induction false} OldestIsUnique(ms: seq<Message>, out: seq<Message>, out': seq<Message>)
    requires DropsOldest(ms, out) && DropsOldest(ms, out')
    ensures out == out'
  {
    var i: nat, e: nat :| Oldest(ms, i, e) && out == ms[..i] + ms[e..];
    var i': nat, e': nat :| Oldest(ms, i', e') && out' == ms[..i'] + ms[e'..];
    assert i == i' && e == e';
  }

  /** The code stands in the middle of an exchange exactly when none opens behind the system prompt. */
  lemma {:induction false} MidExchangeMeans(ms: seq<Message>)
    ensures StartsMidExchange(ms) <==> !OpensExchange(ms)
  {
    var front := if SystemFront(ms) then 1 else 0;
    DroppableFromIsFirst(ms, 0);
    if front < |ms| {
      PinnedIsProtected(ms, front);
      PinnedIsProtected(ms, 0);
    }
  }

  lemma {:induction false} NoDropLeft(ms: seq<Message>, out: seq<Message>)
    requires AllProtected(ms)
    ensures !DropsOldest(ms, out)
  {}

  /** Two such traces never part: where one goes on the other does, and to the same transcript. */
  lemma {:induction false} NeededAgree(a: seq<seq<Message>>, b: seq<seq<Message>>, k: nat, any: bool, tools: seq<Tool>,
                                       counter: Counter, budget: int)
    requires k < |a| && k < |b| && a[k] == b[k]
    requires Evictions(a, a[0], a[|a| - 1]) && Evictions(b, b[0], b[|b| - 1])
    requires Needed(a, any, tools, counter, budget) && Needed(b, any, tools, counter, budget)
    ensures k + 1 < |a| <==> k + 1 < |b|
    ensures k + 1 < |a| ==> a[k + 1] == b[k + 1]
  {
    if k + 1 < |a| {
      assert DropsAt(a, k);
      NoDropLeftAt(a, k);
    }
    if k + 1 < |b| {
      assert DropsAt(b, k);
      NoDropLeftAt(b, k);
    }
    if k + 1 < |a| && k + 1 < |b| { OldestIsUnique(a[k], a[k + 1], b[k + 1]); }
  }

  lemma {:induction false} NoDropLeftAt(trace: seq<seq<Message>>, k: nat)
    requires k + 1 < |trace| && DropsAt(trace, k)
    ensures !AllProtected(trace[k])
  {
    if AllProtected(trace[k]) { NoDropLeft(trace[k], trace[k + 1]); }
  }

  /** So the oldest units that have to go determine what is left. */
  lemma {:induction false} NeededIsUnique(a: seq<seq<Message>>, b: seq<seq<Message>>, any: bool, tools: seq<Tool>,
                                          counter: Counter, budget: int)
    requires a != [] && b != [] && a[0] == b[0]
    requires Evictions(a, a[0], a[|a| - 1]) && Evictions(b, b[0], b[|b| - 1])
    requires Needed(a, any, tools, counter, budget) && Needed(b, any, tools, counter, budget)
    ensures a == b
  {
    var k := 0;
    while k + 1 < |a|
      invariant k < |a| && k < |b| && forall j :: 0 <= j <= k ==> a[j] == b[j]
    {
      NeededAgree(a, b, k, any, tools, counter, budget);
      k := k + 1;
    }
    NeededAgree(a, b, k, any, tools, counter, budget);
  }
}
