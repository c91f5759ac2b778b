/** History compaction: DropOldestUnits evicts whole units, oldest first, guided by an
    incrementally maintained estimate of an arbitrary token counter. */
module Compaction {
  import opened Transcript

  datatype Tool = Tool(name: string, description: string, schema: string)

  /** An arbitrary counter; `None` is a counting error. */
  type Counter = (seq<Message>, seq<Tool>) -> Option<int>

  function Count(counter: Counter, ms: seq<Message>, tools: seq<Tool>): Option<int> {
    counter(ms, tools)
  }

  // ----- what is pinned -----

  datatype TurnKind = UserTurn | ModelTurn | Caller

  predicate Is(kind: TurnKind, m: Message) {
    match kind
    case UserTurn => m.role.User? && !m.origin.Injected?
    case ModelTurn => m.role.Assistant? && !m.origin.Injected?
    case Caller => m.toolCalls != []
  }

  /** Index of the newest of the first `n` messages that is of the given kind, or -1. */
  function LastIn(kind: TurnKind, ms: seq<Message>, n: nat): (r: int)
    requires n <= |ms|
    ensures -1 <= r < n
  {
    if n == 0 then -1 else if Is(kind, ms[n - 1]) then n - 1 else LastIn(kind, ms, n - 1)
  }

  function Last(kind: TurnKind, ms: seq<Message>): (r: int)
    ensures -1 <= r < |ms|
  {
    LastIn(kind, ms, |ms|)
  }

  lemma {:induction false} LastInIsLast(kind: TurnKind, ms: seq<Message>, n: nat)
    requires n <= |ms|
    ensures LastIn(kind, ms, n) >= 0 ==> Is(kind, ms[LastIn(kind, ms, n)])
    ensures forall i :: LastIn(kind, ms, n) < i < n ==> !Is(kind, ms[i])
    decreases n
  {
    if n > 0 { LastInIsLast(kind, ms, n - 1); }
  }

  lemma {:induction false} LastIsLast(kind: TurnKind, ms: seq<Message>)
    ensures Last(kind, ms) >= 0 ==> Is(kind, ms[Last(kind, ms)])
    ensures forall i :: Last(kind, ms) < i < |ms| ==> !Is(kind, ms[i])
  {
    LastInIsLast(kind, ms, |ms|);
  }

  /** The characterization determines the index. */
  lemma {:induction false} LastUnique(kind: TurnKind, ms: seq<Message>, r: int)
    requires -1 <= r < |ms| && (r >= 0 ==> Is(kind, ms[r]))
    requires forall i :: r < i < |ms| ==> !Is(kind, ms[i])
    ensures r == Last(kind, ms)
  {
    LastIsLast(kind, ms);
  }

  /** End of the unit starting at `i`: its head and the tool results behind it. */
  function UnitEnd(ms: seq<Message>, i: nat): (e: nat)
    requires i < |ms|
    ensures i < e <= |ms|
  {
    if ms[i].toolCalls == [] then i + 1 else RunEnd(ms, i + 1)
  }

  function RunEnd(ms: seq<Message>, i: nat): (e: nat)
    requires i <= |ms|
    ensures i <= e <= |ms|
    decreases |ms| - i
  {
    if i < |ms| && ms[i].role.Tool? then RunEnd(ms, i + 1) else i
  }

  lemma {:induction false} RunEndIsEnd(ms: seq<Message>, i: nat)
    requires i <= |ms|
    ensures forall j :: i <= j < RunEnd(ms, i) ==> ms[j].role.Tool?
    ensures RunEnd(ms, i) < |ms| ==> !ms[RunEnd(ms, i)].role.Tool?
    decreases |ms| - i
  {
    if i < |ms| && ms[i].role.Tool? { RunEndIsEnd(ms, i + 1); }
  }

  predicate LeadingSystem(ms: seq<Message>) {
    ms != [] && ms[0].role.System? && ms[0].injection.None?
  }

  /** The newest unit with calls is live while no user turn follows it. */
  predicate Live(ms: seq<Message>, i: nat) {
    var caller := Last(Caller, ms);
    caller >= 0 && caller >= Last(UserTurn, ms) && caller <= i < UnitEnd(ms, caller)
  }

  predicate Pinned(ms: seq<Message>, i: nat)
    requires i < |ms|
  {
    || (i == 0 && LeadingSystem(ms))
    || (ms[i].origin.Injected? && i > Last(ModelTurn, ms))
    || i == Last(UserTurn, ms)
    || Live(ms, i)
  }

  /** The oldest droppable message at or behind `from`, or -1. */
  function DroppableFrom(ms: seq<Message>, from: nat): (r: int)
    requires from <= |ms|
    ensures r == -1 || from <= r < |ms|
    decreases |ms| - from
  {
    if from == |ms| then -1 else if Pinned(ms, from) then DroppableFrom(ms, from + 1) else from
  }

  function FirstDroppable(ms: seq<Message>): (r: int)
    ensures -1 <= r < |ms|
  {
    DroppableFrom(ms, 0)
  }

  lemma {:induction false} DroppableFromIsFirst(ms: seq<Message>, from: nat)
    requires from <= |ms|
    ensures var r := DroppableFrom(ms, from);
      && (r >= 0 ==> !Pinned(ms, r))
      && forall i :: from <= i < (if r < 0 then |ms| else r) ==> Pinned(ms, i)
    decreases |ms| - from
  {
    if from < |ms| && Pinned(ms, from) { DroppableFromIsFirst(ms, from + 1); }
  }

  /** The first message behind the system prompt is droppable and not a user turn. */
  predicate StartsMidExchange(ms: seq<Message>) {
    var front := if LeadingSystem(ms) then 1 else 0;
    front < |ms| && !Is(UserTurn, ms[front]) && FirstDroppable(ms) == front
  }

  function Without(ms: seq<Message>, i: nat, e: nat): seq<Message>
    requires i <= e <= |ms|
  {
    ms[..i] + ms[e..]
  }

  /** The transcript without its oldest droppable unit, if there is one. */
  function DropFirst(ms: seq<Message>): (r: seq<Message>)
    ensures FirstDroppable(ms) >= 0 ==> |r| < |ms|
    ensures |r| <= |ms|
  {
    var i := FirstDroppable(ms);
    if i < 0 then ms else Without(ms, i, UnitEnd(ms, i))
  }

  function OldestUnit(ms: seq<Message>): (unit: seq<Message>)
    requires FirstDroppable(ms) >= 0
    ensures unit != []
  {
    ms[FirstDroppable(ms)..UnitEnd(ms, FirstDroppable(ms))]
  }

  function Iterate<T>(f: T -> T, x: T, n: nat): T {
    if n == 0 then x else Iterate(f, f(x), n - 1)
  }

  /** `n` drops, or as many as there are. Which unit goes next never depends on the counter. */
  function DropN(ms: seq<Message>, n: nat): seq<Message> {
    Iterate(DropFirst, ms, n)
  }

  // ----- the two loops as functions -----

  datatype Pass = Pass(ms: seq<Message>, ok: bool)

  /** A pass stops here; `any` says whether it has dropped something already. */
  predicate PassDone(ms: seq<Message>, estimate: int, any: bool, budget: int) {
    |ms| <= 1 || (estimate <= budget && !(any && StartsMidExchange(ms))) || FirstDroppable(ms) < 0
  }

  /** dropUntilEstimatedToFit, from a point where `any` units have been dropped. */
  function RunPass(ms: seq<Message>, estimate: int, any: bool, counter: Counter, budget: int): (r: Pass)
    ensures |r.ms| <= |ms|
    decreases |ms|
  {
    if PassDone(ms, estimate, any, budget) then Pass(ms, true)
    else
      match Count(counter, OldestUnit(ms), [])
      case None => Pass(ms, false)
      case Some(t) =>
        if t <= 0 then Pass(DropFirst(ms), true) else RunPass(DropFirst(ms), estimate - t, true, counter, budget)
  }

  lemma {:induction false} PassStep(ms: seq<Message>, estimate: int, any: bool, counter: Counter, budget: int, t: int)
    requires !PassDone(ms, estimate, any, budget) && Count(counter, OldestUnit(ms), []) == Some(t)
    ensures RunPass(ms, estimate, any, counter, budget)
      == if t <= 0 then Pass(DropFirst(ms), true) else RunPass(DropFirst(ms), estimate - t, true, counter, budget)
  {}

  /** How many messages a pass gives to the counter: the unit of each of its counts, the failing one included. */
  function PassHanded(ms: seq<Message>, estimate: int, any: bool, counter: Counter, budget: int): nat
    decreases |ms|
  {
    if PassDone(ms, estimate, any, budget) then 0
    else
      |OldestUnit(ms)| +
      match Count(counter, OldestUnit(ms), [])
      case None => 0
      case Some(t) => if t <= 0 then 0 else PassHanded(DropFirst(ms), estimate - t, true, counter, budget)
  }

  datatype Compacted = Compacted(ms: seq<Message>, ok: bool, handed: nat)

  /** DropOldestUnits: an authoritative count before every pass. `handed` is the number of messages given to the
      counter: the whole transcript before every pass, and what the pass itself counts. */
  function Compact(ms: seq<Message>, tools: seq<Tool>, counter: Counter, budget: int): Compacted
    decreases |ms|
  {
    if |ms| <= 1 then Compacted(ms, true, 0)
    else
      match Count(counter, ms, tools)
      case None => Compacted(ms, false, |ms|)
      case Some(count) =>
        if count <= budget then Compacted(ms, true, |ms|)
        else
          var pass := RunPass(ms, count, false, counter, budget);
          var handed := |ms| + PassHanded(ms, count, false, counter, budget);
          if !pass.ok || |pass.ms| == |ms| then Compacted(pass.ms, pass.ok, handed)
          else
            var rest := Compact(pass.ms, tools, counter, budget);
            Compacted(rest.ms, rest.ok, rest.handed + handed)
  }

  // ----- the code -----

  method LastConversationalUserIndex(ms: seq<Message>) returns (r: int)
    ensures r == Last(UserTurn, ms)
  {
    r := |ms| - 1;
    while r >= 0
      invariant -1 <= r < |ms|
      invariant forall i :: r < i < |ms| ==> !Is(UserTurn, ms[i])
    {
      if ms[r].role.User? && !ms[r].origin.Injected? {
        LastUnique(UserTurn, ms, r);
        return;
      }
      r := r - 1;
    }
    LastUnique(UserTurn, ms, r);
  }

  method LastAnsweringAssistantIndex(ms: seq<Message>) returns (r: int)
    ensures r == Last(ModelTurn, ms)
  {
    r := |ms| - 1;
    while r >= 0
      invariant -1 <= r < |ms|
      invariant forall i :: r < i < |ms| ==> !Is(ModelTurn, ms[i])
    {
      if ms[r].role.Assistant? && !ms[r].origin.Injected? {
        LastUnique(ModelTurn, ms, r);
        return;
      }
      r := r - 1;
    }
    LastUnique(ModelTurn, ms, r);
  }

  method FindUnitEnd(ms: seq<Message>, index: nat) returns (end: nat)
    requires index < |ms|
    ensures end == UnitEnd(ms, index)
  {
    end := index + 1;
    if ms[index].toolCalls == [] {
      return;
    }
    while end < |ms| && ms[end].role.Tool?
      invariant index < end <= |ms| && RunEnd(ms, end) == RunEnd(ms, index + 1)
    {
      end := end + 1;
    }
  }

  method IsLiveToolExchange(ms: seq<Message>, index: nat) returns (live: bool)
    requires index < |ms|
    ensures live == Live(ms, index)
  {
    var latest := |ms| - 1;
    while latest >= 0 && ms[latest].toolCalls == []
      invariant -1 <= latest < |ms|
      invariant forall i :: latest < i < |ms| ==> !Is(Caller, ms[i])
    {
      latest := latest - 1;
    }
    LastUnique(Caller, ms, latest);
    if latest < 0 {
      return false;
    }
    var latestUser := LastConversationalUserIndex(ms);
    if latest < latestUser {
      return false;
    }
    var end := FindUnitEnd(ms, latest);
    live := latest <= index < end;
  }

  method FirstDroppableUnit(ms: seq<Message>) returns (r: int)
    ensures r == FirstDroppable(ms)
  {
    var lastUser := LastConversationalUserIndex(ms);
    var lastAssistant := LastAnsweringAssistantIndex(ms);
    DroppableFromIsFirst(ms, 0);
    for i := 0 to |ms|
      invariant forall j :: 0 <= j < i ==> Pinned(ms, j)
    {
      if i == 0 && ms[i].role.System? && ms[i].injection.None? {
        continue;
      }
      if ms[i].origin.Injected? && i > lastAssistant {
        continue;
      }
      if i == lastUser {
        continue;
      }
      var live := IsLiveToolExchange(ms, i);
      if live {
        continue;
      }
      assert !Pinned(ms, i);
      return i;
    }
    r := -1;
  }

  datatype Verdict = Stop(kept: seq<Message>, ok: bool) | GoOn(rest: seq<Message>, estimate: int)

  /** Whether the pass goes on, and if so what it drops and what is left. */
  method FindDrop(ms: seq<Message>, estimate: int, any: bool, budget: int)
    returns (found: bool, unit: seq<Message>, rest: seq<Message>)
    requires |ms| > 1
    ensures found <==> !PassDone(ms, estimate, any, budget)
    ensures found ==> FirstDroppable(ms) >= 0 && unit == OldestUnit(ms) && rest == DropFirst(ms)
  {
    var isOverBudget := estimate > budget;
    var isMidExchange := any && StartsMidExchange(ms);
    if !isOverBudget && !isMidExchange {
      return false, [], ms;
    }
    unit, rest := SplitOldestUnit(ms);
    found := unit != [];
  }

  /** A counter in use, with a book of how many messages it has been given. */
  class TokenCounter {
    const counting: Counter
    ghost var handed: nat

    constructor (counting: Counter)
      ensures this.counting == counting && handed == 0
    {
      this.counting, handed := counting, 0;
    }

    method CountTokens(ms: seq<Message>, tools: seq<Tool>) returns (r: Option<int>)
      modifies this`handed
      ensures r == Count(counting, ms, tools) && handed == old(handed) + |ms|
    {
      handed := handed + |ms|;
      r := Count(counting, ms, tools);
    }
  }

  /** One iteration: the pass is over, with or without a counting error, or it goes on with the rest and a lower
      estimate. Nothing but the unit it drops is counted. */
  method NextDrop(ms: seq<Message>, estimate: int, any: bool, counter: TokenCounter, budget: int)
    returns (verdict: Verdict)
    requires |ms| > 1
    modifies counter`handed
    ensures Decides(ms, estimate, any, counter.counting, budget, verdict)
    ensures counter.handed == old(counter.handed) + UnitHanded(ms, estimate, any, budget)
  {
    var found, unit, rest := FindDrop(ms, estimate, any, budget);
    if !found {
      return Stop(ms, true);
    }
    var counted := counter.CountTokens(unit, []);
    match counted {
      case None => verdict := Stop(ms, false);
      case Some(tokens) => verdict := if tokens <= 0 then Stop(rest, true) else GoOn(rest, estimate - tokens);
    }
  }

  /** What one iteration gives to the counter. */
  function UnitHanded(ms: seq<Message>, estimate: int, any: bool, budget: int): nat {
    if PassDone(ms, estimate, any, budget) then 0 else |OldestUnit(ms)|
  }

  /** What one iteration comes to. */
  predicate Decides(ms: seq<Message>, estimate: int, any: bool, counter: Counter, budget: int, verdict: Verdict) {
    if PassDone(ms, estimate, any, budget) then verdict == Stop(ms, true)
    else
      verdict == match Count(counter, OldestUnit(ms), [])
        case None => Stop(ms, false)
        case Some(t) => if t <= 0 then Stop(DropFirst(ms), true) else GoOn(DropFirst(ms), estimate - t)
  }

  lemma {:induction false} DecidesPass(ms: seq<Message>, estimate: int, any: bool, counter: Counter, budget: int,
                                       verdict: Verdict)
    requires Decides(ms, estimate, any, counter, budget, verdict)
    ensures match verdict
      case Stop(kept, ok) => |kept| <= |ms| && RunPass(ms, estimate, any, counter, budget) == Pass(kept, ok)
      case GoOn(rest, left) =>
        |rest| < |ms| && RunPass(ms, estimate, any, counter, budget) == RunPass(rest, left, true, counter, budget)
  {}

  lemma {:induction false} DecidesHanded(ms: seq<Message>, estimate: int, any: bool, counter: Counter, budget: int,
                                         verdict: Verdict)
    requires Decides(ms, estimate, any, counter, budget, verdict)
    ensures PassHanded(ms, estimate, any, counter, budget) == UnitHanded(ms, estimate, any, budget) + match verdict
      case Stop(_, _) => 0
      case GoOn(rest, left) => PassHanded(rest, left, true, counter, budget)
  {}

  /** The oldest droppable unit, empty if there is none, and what is left without it. */
  method SplitOldestUnit(ms: seq<Message>) returns (unit: seq<Message>, rest: seq<Message>)
    ensures rest == DropFirst(ms) && (unit == [] <==> FirstDroppable(ms) < 0) && (unit != [] ==> unit == OldestUnit(ms))
  {
    var index := FirstDroppableUnit(ms);
    if index < 0 {
      return [], ms;
    }
    var end := FindUnitEnd(ms, index);
    unit, rest := ms[index..end], ms[..index] + ms[end..];
    assert unit == OldestUnit(ms);
  }

  lemma {:induction false} PassOfOne(ms: seq<Message>, estimate: int, any: bool, counter: Counter, budget: int)
    requires |ms| <= 1
    ensures RunPass(ms, estimate, any, counter, budget) == Pass(ms, true)
    ensures PassHanded(ms, estimate, any, counter, budget) == 0
  {}

  /** The eviction loop, on the event's messages and its last authoritative count. */
  method EvictUntilEstimatedToFit(messages: seq<Message>, estimatedTokens: int, counter: TokenCounter, budget: int)
    returns (kept: seq<Message>, dropped: nat, ok: bool)
    modifies counter`handed
    ensures RunPass(messages, estimatedTokens, false, counter.counting, budget) == Pass(kept, ok)
    ensures |kept| == |messages| - dropped
    ensures counter.handed
      == old(counter.handed) + PassHanded(messages, estimatedTokens, false, counter.counting, budget)
  {
    var estimate := estimatedTokens;
    kept, dropped := messages, 0;
    ghost var counting := counter.counting;
    ghost var goal := RunPass(messages, estimatedTokens, false, counting, budget);
    ghost var total := counter.handed + PassHanded(messages, estimatedTokens, false, counting, budget);
    while |kept| > 1
      invariant |kept| == |messages| - dropped
      invariant RunPass(kept, estimate, dropped > 0, counting, budget) == goal
      invariant counter.handed + PassHanded(kept, estimate, dropped > 0, counting, budget) == total
      decreases |kept|
    {
      var verdict := NextDrop(kept, estimate, dropped > 0, counter, budget);
      DecidesPass(kept, estimate, dropped > 0, counting, budget, verdict);
      DecidesHanded(kept, estimate, dropped > 0, counting, budget, verdict);
      if verdict.Stop? {
        return verdict.kept, dropped + |kept| - |verdict.kept|, verdict.ok;
      }
      dropped := dropped + |kept| - |verdict.rest|;
      kept, estimate := verdict.rest, verdict.estimate;
    }
    PassOfOne(kept, estimate, dropped > 0, counting, budget);
    ok := true;
  }

  class TokenLimitEvent {
    var messages: seq<Message>
    var estimatedTokens: int
    const tools: seq<Tool>
    const budgetTokens: int
    const counter: TokenCounter

    constructor (messages: seq<Message>, tools: seq<Tool>, estimatedTokens: int, budgetTokens: int,
      counter: TokenCounter)
      ensures this.messages == messages && this.tools == tools && this.budgetTokens == budgetTokens
      ensures this.counter == counter && this.estimatedTokens == estimatedTokens
    {
      this.messages, this.tools, this.budgetTokens := messages, tools, budgetTokens;
      this.counter, this.estimatedTokens := counter, estimatedTokens;
    }

    /** Recounts the current messages, once; `None` is a counting error. */
    method IsOverBudget() returns (over: Option<bool>)
      modifies this`estimatedTokens, counter`handed
      ensures counter.handed == old(counter.handed) + |messages|
      ensures match Count(counter.counting, messages, tools)
        case None => over == None && estimatedTokens == old(estimatedTokens)
        case Some(count) => over == Some(count > budgetTokens) && estimatedTokens == count
    {
      var counted := counter.CountTokens(messages, tools);
      match counted {
        case None => over := None;
        case Some(count) =>
          estimatedTokens := count;
          over := Some(count > budgetTokens);
      }
    }

    method DropUntilEstimatedToFit() returns (dropped: nat, ok: bool)
      modifies this`messages, counter`handed
      ensures RunPass(old(messages), estimatedTokens, false, counter.counting, budgetTokens) == Pass(messages, ok)
      ensures |messages| == |old(messages)| - dropped
      ensures counter.handed
        == old(counter.handed) + PassHanded(old(messages), estimatedTokens, false, counter.counting, budgetTokens)
    {
      var kept;
      kept, dropped, ok := EvictUntilEstimatedToFit(messages, estimatedTokens, counter, budgetTokens);
      messages := kept;
    }

    /** The counter is given exactly what the compaction has to give it, whether or not it succeeds. */
    method DropOldestUnits() returns (ok: bool)
      modifies this, counter`handed
      ensures var compacted := Compact(old(messages), tools, counter.counting, budgetTokens);
        && messages == compacted.ms && ok == compacted.ok
        && counter.handed == old(counter.handed) + compacted.handed
    {
      ghost var goal, start := Compact(messages, tools, counter.counting, budgetTokens), counter.handed;
      while |messages| > 1
        invariant counter.handed >= start
        invariant var rest := Compact(messages, tools, counter.counting, budgetTokens);
          goal == Compacted(rest.ms, rest.ok, rest.handed + counter.handed - start)
        decreases |messages|
      {
        var over := IsOverBudget();
        if over.None? {
          return false;
        }
        if !over.value {
          return true;
        }
        var dropped, passOk := DropUntilEstimatedToFit();
        if !passOk {
          return false;
        }
        if dropped == 0 {
          return true;
        }
      }
      ok := true;
    }
  }
}
