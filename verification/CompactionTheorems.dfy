/** What compaction guarantees: agreement with the simple handler, pairing, pins, and how it ends. */
module CompactionTheorems {
  import opened Transcript
  import opened Compaction
  import opened Eviction

  // ----- every compaction is a number of drops -----

  lemma {:induction false} IterateAdd<T>(f: T -> T, x: T, m: nat, n: nat)
    ensures Iterate(f, Iterate(f, x, m), n) == Iterate(f, x, m + n)
    decreases m
  {
    if m > 0 { IterateAdd(f, f(x), m - 1, n); }
  }

  lemma {:induction false} DropNStep(ms: seq<Message>, n: nat)
    requires FirstDroppable(ms) >= 0
    ensures DropN(ms, n + 1) == DropN(DropFirst(ms), n)
  {
    assert Iterate(DropFirst, ms, n + 1) == Iterate(DropFirst, DropFirst(ms), n);
  }

  /** A pass that goes on drops the oldest droppable unit first. */
  lemma {:induction false} PassContinues(ms: seq<Message>, estimate: int, any: bool, counter: Counter, budget: int,
                                         t: int, n: nat)
    requires !PassDone(ms, estimate, any, budget) && Count(counter, OldestUnit(ms), []) == Some(t)
    requires if t <= 0 then n == 0
      else RunPass(DropFirst(ms), estimate - t, true, counter, budget).ms == DropN(DropFirst(ms), n)
    ensures RunPass(ms, estimate, any, counter, budget).ms == DropN(ms, n + 1)
  {
    DropNStep(ms, n);
    PassStep(ms, estimate, any, counter, budget, t);
  }

  lemma {:induction false} PassIsDrops(ms: seq<Message>, estimate: int, any: bool, counter: Counter, budget: int)
    ensures exists n: nat :: RunPass(ms, estimate, any, counter, budget).ms == DropN(ms, n)
    decreases |ms|
  {
    if PassDone(ms, estimate, any, budget) {
      assert RunPass(ms, estimate, any, counter, budget).ms == DropN(ms, 0);
    } else {
      var rest := DropFirst(ms);
      match Count(counter, OldestUnit(ms), []) {
        case None => assert RunPass(ms, estimate, any, counter, budget).ms == DropN(ms, 0);
        case Some(t) =>
          if t <= 0 {
            PassContinues(ms, estimate, any, counter, budget, t, 0);
          } else {
            PassIsDrops(rest, estimate - t, true, counter, budget);
            var n: nat :| RunPass(rest, estimate - t, true, counter, budget).ms == DropN(rest, n);
            PassContinues(ms, estimate, any, counter, budget, t, n);
          }
      }
    }
  }

  /** Whatever the counter says, compaction removes oldest droppable units and nothing else. */
  lemma {:induction false} CompactIsDrops(ms: seq<Message>, tools: seq<Tool>, counter: Counter, budget: int)
    ensures exists n: nat :: Compact(ms, tools, counter, budget).ms == DropN(ms, n)
    decreases |ms|
  {
    assert DropN(ms, 0) == ms;
    if |ms| > 1 {
      match Count(counter, ms, tools) {
        case None =>
        case Some(count) =>
          if count > budget {
            var pass := RunPass(ms, count, false, counter, budget);
            PassIsDrops(ms, count, false, counter, budget);
            var m: nat :| pass.ms == DropN(ms, m);
            if pass.ok && |pass.ms| < |ms| {
              CompactIsDrops(pass.ms, tools, counter, budget);
              var n: nat :| Compact(pass.ms, tools, counter, budget).ms == DropN(pass.ms, n);
              IterateAdd(DropFirst, ms, m, n);
              assert DropN(ms, m + n) == DropN(pass.ms, n);
            }
          }
      }
    }
  }

  lemma {:induction false} DropNTrace(ms: seq<Message>, n: nat) returns (trace: seq<seq<Message>>)
    ensures Evictions(trace, ms, DropN(ms, n))
    decreases n
  {
    if n == 0 || FirstDroppable(ms) < 0 {
      NothingDrops(ms, n);
      trace := [ms];
    } else {
      DropIsOldest(ms);
      DropNStep(ms, n - 1);
      trace := DropNTrace(DropFirst(ms), n - 1);
      EvictionsCons(ms, trace, DropN(ms, n));
      trace := [ms] + trace;
    }
  }

  lemma {:induction false} EvictionsCons(ms: seq<Message>, trace: seq<seq<Message>>, out: seq<Message>)
    requires trace != [] && DropsOldest(ms, trace[0]) && Evictions(trace, trace[0], out)
    ensures Evictions([ms] + trace, ms, out)
  {
    var more := [ms] + trace;
    forall k | 0 <= k < |more| - 1 ensures DropsAt(more, k) {
      if k > 0 { assert DropsAt(trace, k - 1); }
    }
  }

  /** For every counter, compaction goes from the transcript to what it leaves by dropping, again and again, the oldest
      unit that need not survive. */
  lemma {:induction false} CompactionEvicts(ms: seq<Message>, tools: seq<Tool>, counter: Counter, budget: int)
    returns (trace: seq<seq<Message>>)
    ensures Evictions(trace, ms, Compact(ms, tools, counter, budget).ms)
  {
    CompactIsDrops(ms, tools, counter, budget);
    var n: nat :| Compact(ms, tools, counter, budget).ms == DropN(ms, n);
    trace := DropNTrace(ms, n);
  }

  // ----- pairing -----

  ghost predicate Compactable(ms: seq<Message>) {
    CallsOnAssistants(ms) && InjectionsPlain(ms)
  }

  /** The oldest droppable unit starts at a boundary: a head before it can only be the live one. */
  lemma {:induction false} DroppableAtBoundary(ms: seq<Message>)
    requires Paired(ms) && Compactable(ms) && FirstDroppable(ms) >= 0
    ensures Boundary(ms, FirstDroppable(ms))
  {
    var i := FirstDroppable(ms);
    DroppableFromIsFirst(ms, 0);
    forall h | 0 <= h < i && IsHead(ms[h]) ensures h + |ms[h].toolCalls| < i {
      assert Pinned(ms, h);
      LastIsLast(UserTurn, ms);
      LastIsLast(Caller, ms);
      assert Live(ms, h);
      var caller := Last(Caller, ms);
      assert h <= caller;
      assert UnitAt(ms, h);
      UnitCovers(ms, h);
      assert !Live(ms, i);
    }
  }

  /** The unit end reaches at least to the end of the answers. */
  lemma {:induction false} UnitCovers(ms: seq<Message>, h: nat)
    requires h < |ms| && IsHead(ms[h]) && UnitAt(ms, h)
    ensures UnitEnd(ms, h) >= h + 1 + |ms[h].toolCalls|
  {
    var k := |ms[h].toolCalls|;
    AnsweredByMembers(ms[h].toolCalls, ms[h + 1..h + 1 + k]);
    assert forall j :: h < j <= h + k ==> ms[j] == ms[h + 1..h + 1 + k][j - h - 1];
    UnitEndReaches(ms, h, h + 1 + k);
  }

  lemma {:induction false} UnitEndReaches(ms: seq<Message>, i: nat, e: nat)
    requires i < e <= |ms| && ms[i].toolCalls != []
    requires forall j :: i < j < e ==> ms[j].role.Tool?
    ensures UnitEnd(ms, i) >= e
  {
    RunEndIsEnd(ms, i + 1);
  }

  lemma {:induction false} DropKeepsPaired(ms: seq<Message>)
    requires Paired(ms) && Compactable(ms) && FirstDroppable(ms) >= 0
    ensures Paired(DropFirst(ms))
  {
    var i := FirstDroppable(ms);
    var e := UnitEnd(ms, i);
    DroppableAtBoundary(ms);
    NoToolAtBoundary(ms, i);
    assert Boundary(ms, e) by {
      if ms[i].toolCalls != [] {
        var k := |ms[i].toolCalls|;
        assert UnitAt(ms, i);
        UnitEndsAtBoundary(ms, i);
        UnitCovers(ms, i);
        RunEndIsEnd(ms, i + 1);
        if i + 1 + k < |ms| { NoToolAtBoundary(ms, i + 1 + k); }
        assert e == i + 1 + k;
      }
    }
    PairedPrefix(ms, i);
    PairedSuffix(ms, e);
    PairedConcat(ms[..i], ms[e..]);
  }

  lemma {:induction false} WithoutKeepsCompactable(ms: seq<Message>, i: nat, e: nat)
    requires i <= e <= |ms|
    ensures CallsOnAssistants(ms) ==> CallsOnAssistants(Without(ms, i, e))
    ensures InjectionsPlain(ms) ==> InjectionsPlain(Without(ms, i, e))
  {}

  lemma {:induction false} DropNKeepsPaired(ms: seq<Message>, n: nat)
    ensures CallsOnAssistants(ms) ==> CallsOnAssistants(DropN(ms, n))
    ensures InjectionsPlain(ms) ==> InjectionsPlain(DropN(ms, n))
    ensures Compactable(ms) && Paired(ms) ==> Paired(DropN(ms, n))
    decreases n
  {
    if n > 0 {
      var i := FirstDroppable(ms);
      if i >= 0 {
        WithoutKeepsCompactable(ms, i, UnitEnd(ms, i));
        if Compactable(ms) && Paired(ms) { DropKeepsPaired(ms); }
      }
      DropNKeepsPaired(DropFirst(ms), n - 1);
    }
  }

  /** Compaction of a paired transcript is paired, for every counter and every budget. */
  lemma {:induction false} CompactionKeepsPaired(ms: seq<Message>, tools: seq<Tool>, counter: Counter, budget: int)
    ensures var out := Compact(ms, tools, counter, budget).ms;
      && (CallsOnAssistants(ms) ==> CallsOnAssistants(out))
      && (InjectionsPlain(ms) ==> InjectionsPlain(out))
      && (Compactable(ms) && Paired(ms) ==> Paired(out))
  {
    CompactIsDrops(ms, tools, counter, budget);
    var n: nat :| Compact(ms, tools, counter, budget).ms == DropN(ms, n);
    DropNKeepsPaired(ms, n);
  }

  // ----- pins -----

  /** Where position `i` lands when `[a, b)` is removed. */
  function Shift(i: int, a: nat, b: nat): int
    requires a <= b
  {
    if i < a then i else i - (b - a)
  }

  lemma {:induction false} WithoutAt(ms: seq<Message>, a: nat, b: nat, i: nat)
    requires a <= b <= |ms| && i < |ms| && !(a <= i < b)
    ensures 0 <= Shift(i, a, b) < |Without(ms, a, b)| && Without(ms, a, b)[Shift(i, a, b)] == ms[i]
  {}

  /** Messages behind `i` that are not of a kind stay so. */
  lemma {:induction false} LastBelow(kind: TurnKind, ms: seq<Message>, a: nat, b: nat, i: nat)
    requires a <= b <= |ms| && i < |ms| && !(a <= i < b) && Last(kind, ms) < i
    ensures Last(kind, Without(ms, a, b)) < Shift(i, a, b)
  {
    var out := Without(ms, a, b);
    var r := Last(kind, out);
    LastIsLast(kind, ms);
    LastIsLast(kind, out);
    if r >= 0 {
      var back := if r < a then r else r + (b - a);
      assert ms[back] == out[r];
    }
  }

  /** The newest message of a kind stays the newest when it is not removed. */
  lemma {:induction false} LastShifts(kind: TurnKind, ms: seq<Message>, a: nat, b: nat)
    requires a <= b <= |ms| && !(a <= Last(kind, ms) < b)
    ensures Last(kind, Without(ms, a, b)) == Shift(Last(kind, ms), a, b)
  {
    var out, r := Without(ms, a, b), Last(kind, ms);
    LastIsLast(kind, ms);
    if r >= 0 { WithoutAt(ms, a, b, r); }
    forall i | Shift(r, a, b) < i < |out| ensures !Is(kind, out[i]) {
      var back := if i < a then i else i + (b - a);
      assert out[i] == ms[back];
    }
    LastUnique(kind, out, Shift(r, a, b));
  }

  /** A unit reaching behind its head holds tool messages only, so no turn and no head is lost with it. */
  lemma {:induction false} DroppedInside(ms: seq<Message>, j: nat)
    requires Compactable(ms) && FirstDroppable(ms) >= 0
    requires FirstDroppable(ms) < j < UnitEnd(ms, FirstDroppable(ms))
    ensures ms[j].role.Tool? && ms[j].toolCalls == [] && !ms[j].origin.Injected?
  {
    RunEndIsEnd(ms, FirstDroppable(ms) + 1);
  }

  lemma {:induction false} PinnedNotDropped(ms: seq<Message>, i: nat)
    requires Compactable(ms) && FirstDroppable(ms) >= 0
    requires FirstDroppable(ms) <= i < UnitEnd(ms, FirstDroppable(ms))
    ensures !Pinned(ms, i)
  {
    var a := FirstDroppable(ms);
    DroppableFromIsFirst(ms, 0);
    if i > a {
      DroppedInside(ms, i);
      LastIsLast(UserTurn, ms);
      LastIsLast(Caller, ms);
      forall j | a < j < UnitEnd(ms, a) ensures !Is(Caller, ms[j]) { DroppedInside(ms, j); }
      assert !Live(ms, a);
    }
  }

  lemma {:induction false} PinnedStays(ms: seq<Message>, i: nat)
    requires Compactable(ms) && FirstDroppable(ms) >= 0 && i < |ms| && Pinned(ms, i)
    ensures !(FirstDroppable(ms) <= i < UnitEnd(ms, FirstDroppable(ms)))
  {
    if FirstDroppable(ms) <= i < UnitEnd(ms, FirstDroppable(ms)) { PinnedNotDropped(ms, i); }
  }

  /** Tool results between two surviving messages stay between them. */
  lemma {:induction false} ToolsBetween(ms: seq<Message>, a: nat, b: nat, h: nat, i: nat)
    requires a <= b <= |ms| && h <= i < |ms| && !(a <= h < b) && !(a <= i < b)
    requires forall j :: h < j <= i ==> ms[j].role.Tool?
    ensures forall j :: Shift(h, a, b) < j <= Shift(i, a, b) ==>
      0 <= j < |Without(ms, a, b)| && Without(ms, a, b)[j].role.Tool?
  {
    var out := Without(ms, a, b);
    WithoutAt(ms, a, b, i);
    forall j | Shift(h, a, b) < j <= Shift(i, a, b) ensures 0 <= j < |out| && out[j].role.Tool? {
      var back := if j < a then j else j + (b - a);
      assert out[j] == ms[back];
    }
  }

  lemma {:induction false} LiveShifts(ms: seq<Message>, i: nat)
    requires Compactable(ms) && FirstDroppable(ms) >= 0 && i < |ms| && Live(ms, i)
    ensures var a := FirstDroppable(ms);
      var b := UnitEnd(ms, a);
      0 <= Shift(i, a, b) && Live(Without(ms, a, b), Shift(i, a, b))
  {
    var a := FirstDroppable(ms);
    var b := UnitEnd(ms, a);
    var out := Without(ms, a, b);
    var caller, user := Last(Caller, ms), Last(UserTurn, ms);
    assert Pinned(ms, caller) && Pinned(ms, i);
    PinnedStays(ms, caller);
    PinnedStays(ms, i);
    if user >= 0 { PinnedStays(ms, user); }
    LastShifts(Caller, ms, a, b);
    LastShifts(UserTurn, ms, a, b);
    WithoutAt(ms, a, b, caller);
    WithoutAt(ms, a, b, i);
    LastIsLast(Caller, ms);
    RunEndIsEnd(ms, caller + 1);
    ToolsBetween(ms, a, b, caller, i);
    UnitEndReaches(out, Shift(caller, a, b), Shift(i, a, b) + 1);
  }

  /** One drop: every pinned message survives and is still pinned. */
  lemma {:induction false} PinSurvivesDrop(ms: seq<Message>, i: nat)
    requires Compactable(ms) && FirstDroppable(ms) >= 0 && i < |ms| && Pinned(ms, i)
    ensures var a := FirstDroppable(ms);
      var b := UnitEnd(ms, a);
      var s := Shift(i, a, b);
      0 <= s < |Without(ms, a, b)| && Without(ms, a, b)[s] == ms[i] && Pinned(Without(ms, a, b), s)
  {
    var a := FirstDroppable(ms);
    var b := UnitEnd(ms, a);
    var out, s := Without(ms, a, b), Shift(i, a, b);
    PinnedStays(ms, i);
    WithoutAt(ms, a, b, i);
    if Live(ms, i) {
      LiveShifts(ms, i);
    } else if i == Last(UserTurn, ms) {
      LastShifts(UserTurn, ms, a, b);
    } else if ms[i].origin.Injected? && i > Last(ModelTurn, ms) {
      LastBelow(ModelTurn, ms, a, b, i);
    } else {
      assert i == 0 && out[0] == ms[0];
    }
  }

  /** `kept` lists, in order, where each message of `out` stood in `ms`. */
  ghost predicate Embeds(ms: seq<Message>, out: seq<Message>, kept: seq<nat>) {
    && |kept| == |out|
    && (forall j :: 0 <= j < |kept| ==> kept[j] < |ms| && out[j] == ms[kept[j]])
    && (forall j, k :: 0 <= j < k < |kept| ==> kept[j] < kept[k])
  }

  /** Every message that must survive is kept, and must survive still. */
  ghost predicate KeepsPins(ms: seq<Message>, out: seq<Message>, kept: seq<nat>)
    requires Embeds(ms, out, kept)
  {
    forall i {:trigger Protected(ms, i)} :: 0 <= i < |ms| && Protected(ms, i) ==>
      exists j :: 0 <= j < |kept| && kept[j] == i && Protected(out, j)
  }

  /** The same, for pins as the code sees them. */
  ghost predicate HoldsPins(ms: seq<Message>, out: seq<Message>, kept: seq<nat>)
    requires Embeds(ms, out, kept)
  {
    forall i :: 0 <= i < |ms| && Pinned(ms, i) ==> exists j :: 0 <= j < |kept| && kept[j] == i && Pinned(out, j)
  }

  lemma {:induction false} HeldIsKept(ms: seq<Message>, out: seq<Message>, kept: seq<nat>)
    requires Embeds(ms, out, kept) && HoldsPins(ms, out, kept)
    ensures KeepsPins(ms, out, kept)
  {
    forall i | 0 <= i < |ms| && Protected(ms, i)
      ensures exists j :: 0 <= j < |kept| && kept[j] == i && Protected(out, j)
    {
      PinnedIsProtected(ms, i);
      var j :| 0 <= j < |kept| && kept[j] == i && Pinned(out, j);
      PinnedIsProtected(out, j);
    }
  }

  lemma {:induction false} DropNHoldsPins(ms: seq<Message>, n: nat) returns (kept: seq<nat>)
    requires Compactable(ms)
    ensures Embeds(ms, DropN(ms, n), kept) && HoldsPins(ms, DropN(ms, n), kept)
    decreases n
  {
    if n == 0 || FirstDroppable(ms) < 0 {
      NothingDrops(ms, n);
      kept := seq(|ms|, i => i);
      forall i | 0 <= i < |ms| && Pinned(ms, i) ensures exists j :: 0 <= j < |kept| && kept[j] == i && Pinned(ms, j) {
        assert kept[i] == i;
      }
    } else {
      var a := FirstDroppable(ms);
      var b := UnitEnd(ms, a);
      var mid := Without(ms, a, b);
      WithoutKeepsCompactable(ms, a, b);
      DropNStep(ms, n - 1);
      var inner := DropNHoldsPins(mid, n - 1);
      kept := Lift(ms, a, b, inner, DropN(mid, n - 1));
      forall i | 0 <= i < |ms| && Pinned(ms, i)
        ensures exists j :: 0 <= j < |kept| && kept[j] == i && Pinned(DropN(ms, n), j)
      {
        PinSurvivesDrop(ms, i);
        PinnedStays(ms, i);
        var j :| 0 <= j < |inner| && inner[j] == Shift(i, a, b) && Pinned(DropN(mid, n - 1), j);
        assert kept[j] == i;
      }
    }
  }

  lemma {:induction false} NothingDrops(ms: seq<Message>, n: nat)
    requires n == 0 || FirstDroppable(ms) < 0
    ensures DropN(ms, n) == ms
    decreases n
  {
    if n > 0 { NothingDrops(ms, n - 1); }
  }

  /** Positions in the transcript without `[a, b)` translated back to the transcript itself. */
  lemma {:induction false} Lift(ms: seq<Message>, a: nat, b: nat, inner: seq<nat>, out: seq<Message>)
    returns (kept: seq<nat>)
    requires a <= b <= |ms| && Embeds(Without(ms, a, b), out, inner)
    ensures Embeds(ms, out, kept)
    ensures forall j :: 0 <= j < |inner| ==> kept[j] == if inner[j] < a then inner[j] else inner[j] + (b - a)
  {
    kept := seq(|inner|, j requires 0 <= j < |inner| => if inner[j] < a then inner[j] else inner[j] + (b - a));
  }

  /** For every counter, what compaction returns is a subsequence holding everything that must survive. */
  lemma {:induction false} CompactionKeepsPins(ms: seq<Message>, tools: seq<Tool>, counter: Counter, budget: int)
    returns (kept: seq<nat>)
    requires Compactable(ms)
    ensures Embeds(ms, Compact(ms, tools, counter, budget).ms, kept)
    ensures KeepsPins(ms, Compact(ms, tools, counter, budget).ms, kept)
  {
    CompactIsDrops(ms, tools, counter, budget);
    var n: nat :| Compact(ms, tools, counter, budget).ms == DropN(ms, n);
    kept := DropNHoldsPins(ms, n);
    HeldIsKept(ms, DropN(ms, n), kept);
  }

  // ----- how compaction ends -----

  /** A pass over a transcript that is over budget always drops, or there is nothing to drop. */
  lemma {:induction false} PassProgress(ms: seq<Message>, estimate: int, counter: Counter, budget: int)
    requires estimate > budget && |ms| > 1
    ensures var pass := RunPass(ms, estimate, false, counter, budget);
      pass.ok && |pass.ms| == |ms| ==> FirstDroppable(ms) < 0 && pass.ms == ms
  {
    if FirstDroppable(ms) >= 0 {
      match Count(counter, OldestUnit(ms), []) {
        case None =>
        case Some(t) => PassStep(ms, estimate, false, counter, budget, t);
      }
    }
  }

  /** For an arbitrary counter, a successful compaction ends where the authoritative
      count fits, nothing is droppable, or at most one message is left. */
  lemma {:induction false} CompactionSettles(ms: seq<Message>, tools: seq<Tool>, counter: Counter, budget: int)
    ensures Compact(ms, tools, counter, budget).ok ==>
      AtRest(Compact(ms, tools, counter, budget).ms, tools, counter, budget)
    decreases |ms|
  {
    if |ms| > 1 {
      NoneDroppable(ms);
      match Count(counter, ms, tools) {
        case None =>
        case Some(count) =>
          if count > budget {
            var pass := RunPass(ms, count, false, counter, budget);
            PassProgress(ms, count, counter, budget);
            if pass.ok && |pass.ms| < |ms| {
              CompactionSettles(pass.ms, tools, counter, budget);
            }
          }
      }
    }
  }

  /** Every nonempty run of messages has positive cost. */
  ghost predicate Positive(counter: Counter) {
    forall ms: seq<Message> :: ms != [] ==>
      match Count(counter, ms, []) case None => true case Some(t) => t > 0
  }

  ghost predicate HasUserTurn(ms: seq<Message>) {
    exists i :: 0 <= i < |ms| && Is(UserTurn, ms[i])
  }

  lemma {:induction false} DropKeepsUserTurn(ms: seq<Message>)
    requires Compactable(ms) && HasUserTurn(ms) && FirstDroppable(ms) >= 0
    ensures Compactable(DropFirst(ms)) && HasUserTurn(DropFirst(ms))
  {
    var a := FirstDroppable(ms);
    var b := UnitEnd(ms, a);
    var u := Last(UserTurn, ms);
    LastIsLast(UserTurn, ms);
    assert u >= 0 && Pinned(ms, u);
    PinnedStays(ms, u);
    WithoutAt(ms, a, b, u);
    WithoutKeepsCompactable(ms, a, b);
  }

  lemma {:induction false} SingleUserTurn(ms: seq<Message>)
    requires |ms| <= 1 && HasUserTurn(ms)
    ensures !StartsMidExchange(ms)
  {}

  lemma {:induction false} DropNKeepsUserTurn(ms: seq<Message>, n: nat)
    requires Compactable(ms) && HasUserTurn(ms)
    ensures Compactable(DropN(ms, n)) && HasUserTurn(DropN(ms, n))
    decreases n
  {
    if n > 0 {
      if FirstDroppable(ms) >= 0 { DropKeepsUserTurn(ms); }
      DropNKeepsUserTurn(DropFirst(ms), n - 1);
    }
  }

  lemma {:induction false} PassKeepsUserTurn(ms: seq<Message>, estimate: int, any: bool, counter: Counter, budget: int)
    requires Compactable(ms) && HasUserTurn(ms)
    ensures var pass := RunPass(ms, estimate, any, counter, budget);
      Compactable(pass.ms) && HasUserTurn(pass.ms)
  {
    PassIsDrops(ms, estimate, any, counter, budget);
    var n: nat :| RunPass(ms, estimate, any, counter, budget).ms == DropN(ms, n);
    DropNKeepsUserTurn(ms, n);
  }

  lemma {:induction false} PassStops(ms: seq<Message>, estimate: int, any: bool, counter: Counter, budget: int)
    requires PassDone(ms, estimate, any, budget)
    ensures RunPass(ms, estimate, any, counter, budget) == Pass(ms, true)
    ensures any ==> |ms| <= 1 || !StartsMidExchange(ms)
  {}

  /** The pass either cannot count the next unit, or goes on to where the rest of it goes. */
  lemma {:induction false} PassMoves(ms: seq<Message>, estimate: int, any: bool, counter: Counter, budget: int)
    requires Positive(counter) && !PassDone(ms, estimate, any, budget)
    ensures Count(counter, OldestUnit(ms), []).None? ==> !RunPass(ms, estimate, any, counter, budget).ok
    ensures Count(counter, OldestUnit(ms), []).Some? ==>
      var t := Count(counter, OldestUnit(ms), []).value;
      RunPass(ms, estimate, any, counter, budget) == RunPass(DropFirst(ms), estimate - t, true, counter, budget)
  {
    assert OldestUnit(ms) != [];
  }

  predicate EndsOutside(pass: Pass) {
    pass.ok ==> |pass.ms| <= 1 || !StartsMidExchange(pass.ms)
  }

  /** Once a pass has dropped something it goes on while it stands in the middle of an exchange. */
  lemma {:induction false} PassGoesOn(ms: seq<Message>, estimate: int, any: bool, counter: Counter, budget: int)
    requires Positive(counter)
    ensures var pass := RunPass(ms, estimate, any, counter, budget);
      any || |pass.ms| < |ms| ==> EndsOutside(pass)
    decreases |ms|
  {
    if PassDone(ms, estimate, any, budget) {
      PassStops(ms, estimate, any, counter, budget);
    } else {
      PassMoves(ms, estimate, any, counter, budget);
      if Count(counter, OldestUnit(ms), []).Some? {
        PassGoesOn(DropFirst(ms), estimate - Count(counter, OldestUnit(ms), []).value, true, counter, budget);
      }
    }
  }

  lemma {:induction false} PassEndsAtExchange(ms: seq<Message>, estimate: int, any: bool, counter: Counter, budget: int)
    requires Positive(counter) && Compactable(ms) && HasUserTurn(ms)
    ensures var pass := RunPass(ms, estimate, any, counter, budget);
      pass.ok && (any || |pass.ms| < |ms|) ==> !StartsMidExchange(pass.ms)
  {
    var pass := RunPass(ms, estimate, any, counter, budget);
    PassKeepsUserTurn(ms, estimate, any, counter, budget);
    PassGoesOn(ms, estimate, any, counter, budget);
    if |pass.ms| <= 1 { SingleUserTurn(pass.ms); }
  }

  /** A compaction that goes on ends where its last pass ends. */
  lemma {:induction false} CompactionLeavesMid(ms: seq<Message>, tools: seq<Tool>, counter: Counter, budget: int)
    requires Positive(counter) && Compactable(ms) && HasUserTurn(ms)
    ensures var c := Compact(ms, tools, counter, budget);
      c.ok && |c.ms| < |ms| ==> !StartsMidExchange(c.ms)
    decreases |ms|
  {
    if |ms| > 1 {
      match Count(counter, ms, tools) {
        case None =>
        case Some(count) =>
          if count > budget {
            var pass := RunPass(ms, count, false, counter, budget);
            PassKeepsUserTurn(ms, count, false, counter, budget);
            PassEndsAtExchange(ms, count, false, counter, budget);
            if pass.ok && |pass.ms| < |ms| {
              CompactShrinks(pass.ms, tools, counter, budget);
              CompactionLeavesMid(pass.ms, tools, counter, budget);
            }
          }
      }
    }
  }

  /** With positive costs and a user turn present, a compaction that dropped anything leaves an exchange whole: behind
      the system prompt stands a user turn, or a message that must survive. */
  lemma {:induction false} CompactionEndsAtExchange(ms: seq<Message>, tools: seq<Tool>, counter: Counter, budget: int)
    requires Positive(counter) && Compactable(ms) && HasUserTurn(ms)
    ensures var c := Compact(ms, tools, counter, budget);
      c.ok && |c.ms| < |ms| ==> OpensExchange(c.ms)
  {
    CompactionLeavesMid(ms, tools, counter, budget);
    MidExchangeMeans(Compact(ms, tools, counter, budget).ms);
  }

  /** Conversely a pass never goes past that point: with an estimate that fits it drops nothing, unless it has dropped
      something already and no exchange opens the transcript. */
  lemma {:induction false} PassStopsAtExchange(ms: seq<Message>, estimate: int, any: bool, counter: Counter,
                                               budget: int)
    requires estimate <= budget && (any ==> OpensExchange(ms))
    ensures RunPass(ms, estimate, any, counter, budget) == Pass(ms, true)
  {
    MidExchangeMeans(ms);
  }

  lemma {:induction false} CompactShrinks(ms: seq<Message>, tools: seq<Tool>, counter: Counter, budget: int)
    ensures var c := Compact(ms, tools, counter, budget);
      |c.ms| <= |ms| && (c.ok && |c.ms| == |ms| ==> c.ms == ms)
    decreases |ms|
  {
    if |ms| > 1 {
      match Count(counter, ms, tools) {
        case None =>
        case Some(count) =>
          if count > budget {
            var pass := RunPass(ms, count, false, counter, budget);
            PassProgress(ms, count, counter, budget);
            if pass.ok && |pass.ms| < |ms| {
              CompactShrinks(pass.ms, tools, counter, budget);
            }
          }
      }
    }
  }

  // ----- the fast form agrees with the simple one -----

  /** The simple handler: recount everything after each dropped unit. */
  function Simple(ms: seq<Message>, tools: seq<Tool>, any: bool, counter: Counter, budget: int): seq<Message>
    decreases |ms|
  {
    var fits := match Count(counter, ms, tools) case None => true case Some(count) => count <= budget;
    if |ms| <= 1 || (fits && !(any && StartsMidExchange(ms))) || FirstDroppable(ms) < 0 then ms
    else Simple(DropFirst(ms), tools, true, counter, budget)
  }

  function Total(ms: seq<Message>, cost: Message -> int): int {
    if ms == [] then 0 else cost(ms[0]) + Total(ms[1..], cost)
  }

  /** The counter is a sum of positive per-message costs plus a cost for the tools. */
  ghost predicate Additive(counter: Counter, cost: Message -> int, toolCost: seq<Tool> -> int) {
    && toolCost([]) == 0
    && (forall m :: cost(m) > 0)
    && (forall ms, tools {:trigger Count(counter, ms, tools)} ::
          Count(counter, ms, tools) == Some(Total(ms, cost) + toolCost(tools)))
  }

  lemma {:induction false} TotalConcat(a: seq<Message>, b: seq<Message>, cost: Message -> int)
    ensures Total(a + b, cost) == Total(a, cost) + Total(b, cost)
    decreases |a|
  {
    if a == [] {
      assert a + b == b;
    } else {
      assert (a + b)[1..] == a[1..] + b;
      TotalConcat(a[1..], b, cost);
    }
  }

  lemma {:induction false} TotalWithout(ms: seq<Message>, i: nat, e: nat, cost: Message -> int)
    requires i <= e <= |ms|
    ensures Total(Without(ms, i, e), cost) == Total(ms, cost) - Total(ms[i..e], cost)
  {
    TotalConcat(ms[..i], ms[e..], cost);
    TotalConcat(ms[..i], ms[i..e], cost);
    TotalConcat(ms[..i] + ms[i..e], ms[e..], cost);
    assert ms == ms[..i] + ms[i..e] + ms[e..];
  }

  lemma {:induction false} TotalPositive(ms: seq<Message>, cost: Message -> int)
    requires forall m :: cost(m) > 0
    ensures Total(ms, cost) >= |ms|
    decreases |ms|
  {
    if ms != [] { TotalPositive(ms[1..], cost); }
  }

  /** What a unit costs on its way out is exactly what the rest no longer costs. */
  lemma {:induction false} UnitCost(ms: seq<Message>, counter: Counter, cost: Message -> int,
    toolCost: seq<Tool> -> int)
    requires Additive(counter, cost, toolCost) && FirstDroppable(ms) >= 0
    ensures Count(counter, OldestUnit(ms), []) == Some(Total(OldestUnit(ms), cost)) && Total(OldestUnit(ms), cost) > 0
    ensures Total(DropFirst(ms), cost) == Total(ms, cost) - Total(OldestUnit(ms), cost)
  {
    TotalPositive(OldestUnit(ms), cost);
    TotalWithout(ms, FirstDroppable(ms), UnitEnd(ms, FirstDroppable(ms)), cost);
  }

  lemma {:induction false} SimpleStep(ms: seq<Message>, tools: seq<Tool>, any: bool, counter: Counter, budget: int,
                                      count: int)
    requires Count(counter, ms, tools) == Some(count) && !PassDone(ms, count, any, budget)
    ensures Simple(ms, tools, any, counter, budget)
      == Simple(DropFirst(ms), tools, true, counter, budget)
  {}

  lemma {:induction false} SimpleStops(ms: seq<Message>, tools: seq<Tool>, any: bool, counter: Counter, budget: int,
                                       count: int)
    requires Count(counter, ms, tools) == Some(count) && PassDone(ms, count, any, budget)
    ensures Simple(ms, tools, any, counter, budget) == ms && RunPass(ms, count, any, counter, budget) == Pass(ms, true)
    ensures AtRest(ms, tools, counter, budget)
  {
    NoneDroppable(ms);
  }

  /** The pass drops the oldest unit, and its estimate stays the true count. */
  lemma {:induction false} FastMoves(ms: seq<Message>, tools: seq<Tool>, estimate: int, any: bool, counter: Counter,
                                     budget: int,
                                     cost: Message -> int, toolCost: seq<Tool> -> int) returns (left: int)
    requires Additive(counter, cost, toolCost) && estimate == Total(ms, cost) + toolCost(tools)
    requires !PassDone(ms, estimate, any, budget)
    ensures left == Total(DropFirst(ms), cost) + toolCost(tools)
    ensures RunPass(ms, estimate, any, counter, budget) == RunPass(DropFirst(ms), left, true, counter, budget)
  {
    var t := Total(OldestUnit(ms), cost);
    left := estimate - t;
    UnitCost(ms, counter, cost, toolCost);
    PassStep(ms, estimate, any, counter, budget, t);
  }

  /** The simple handler drops the same unit. */
  lemma {:induction false} SimpleMoves(ms: seq<Message>, tools: seq<Tool>, estimate: int, any: bool, counter: Counter,
                                       budget: int,
                                       cost: Message -> int, toolCost: seq<Tool> -> int)
    requires Additive(counter, cost, toolCost) && estimate == Total(ms, cost) + toolCost(tools)
    requires !PassDone(ms, estimate, any, budget)
    ensures |DropFirst(ms)| < |ms|
    ensures Simple(ms, tools, any, counter, budget) == Simple(DropFirst(ms), tools, true, counter, budget)
  {
    assert Count(counter, ms, tools) == Some(estimate);
    SimpleStep(ms, tools, any, counter, budget, estimate);
  }

  /** For an additive counter the running estimate is always the true count. */
  lemma {:induction false} PassIsSimple(ms: seq<Message>, tools: seq<Tool>, estimate: int, any: bool, counter: Counter,
                                        budget: int,
                                        cost: Message -> int, toolCost: seq<Tool> -> int)
    requires Additive(counter, cost, toolCost) && estimate == Total(ms, cost) + toolCost(tools)
    ensures var pass := RunPass(ms, estimate, any, counter, budget);
      pass.ok && pass.ms == Simple(ms, tools, any, counter, budget) && AtRest(pass.ms, tools, counter, budget)
    decreases |ms|
  {
    if PassDone(ms, estimate, any, budget) {
      assert Count(counter, ms, tools) == Some(estimate);
      SimpleStops(ms, tools, any, counter, budget, estimate);
    } else {
      SimpleMoves(ms, tools, estimate, any, counter, budget, cost, toolCost);
      var left := FastMoves(ms, tools, estimate, any, counter, budget, cost, toolCost);
      PassIsSimple(DropFirst(ms), tools, left, true, counter, budget, cost, toolCost);
    }
  }

  /** What a pass counts on the way out is exactly what it drops, once each; at most the whole transcript if counting
      fails. */
  lemma {:induction false} PassHandsEachOnce(ms: seq<Message>, estimate: int, any: bool, counter: Counter, budget: int)
    ensures var pass, handed := RunPass(ms, estimate, any, counter, budget),
      PassHanded(ms, estimate, any, counter, budget);
      handed <= |ms| && (pass.ok ==> handed == |ms| - |pass.ms|)
    decreases |ms|
  {
    if PassDone(ms, estimate, any, budget) {
      PassStops(ms, estimate, any, counter, budget);
    } else {
      var rest, left, over := PassHandsUnit(ms, estimate, any, counter, budget);
      if !over { PassHandsEachOnce(rest, left, true, counter, budget); }
    }
  }

  /** One drop: `over` says whether the pass ends with it. */
  lemma {:induction false} PassHandsUnit(ms: seq<Message>, estimate: int, any: bool, counter: Counter, budget: int)
    returns (rest: seq<Message>, left: int, over: bool)
    requires !PassDone(ms, estimate, any, budget)
    ensures |rest| < |ms|
    ensures var pass, handed := RunPass(ms, estimate, any, counter, budget),
      PassHanded(ms, estimate, any, counter, budget);
      if over then handed == |ms| - |rest| && (pass.ok ==> pass.ms == rest)
      else
        && pass == RunPass(rest, left, true, counter, budget)
        && handed == |ms| - |rest| + PassHanded(rest, left, true, counter, budget)
  {
    rest, left, over := DropFirst(ms), estimate, true;
    DropSplits(ms);
    var counted := Count(counter, OldestUnit(ms), []);
    HandedStep(ms, estimate, any, counter, budget, OldestUnit(ms), rest, counted);
    RunStep(ms, estimate, any, counter, budget, OldestUnit(ms), rest, counted);
    if counted.Some? {
      left, over := estimate - counted.value, counted.value <= 0;
    }
  }

  lemma {:induction false} HandedStep(ms: seq<Message>, estimate: int, any: bool, counter: Counter, budget: int,
                                      unit: seq<Message>, rest: seq<Message>, counted: Option<int>)
    requires !PassDone(ms, estimate, any, budget) && unit == OldestUnit(ms) && rest == DropFirst(ms)
    requires counted == Count(counter, unit, [])
    ensures PassHanded(ms, estimate, any, counter, budget) == |unit| +
      if counted.None? || counted.value <= 0 then 0
        else PassHanded(rest, estimate - counted.value, true, counter, budget)
  {}

  lemma {:induction false} RunStep(ms: seq<Message>, estimate: int, any: bool, counter: Counter, budget: int,
                                   unit: seq<Message>, rest: seq<Message>, counted: Option<int>)
    requires !PassDone(ms, estimate, any, budget) && unit == OldestUnit(ms) && rest == DropFirst(ms)
    requires counted == Count(counter, unit, [])
    ensures RunPass(ms, estimate, any, counter, budget) ==
      if counted.None? then Pass(ms, false)
      else if counted.value <= 0 then Pass(rest, true)
      else RunPass(rest, estimate - counted.value, true, counter, budget)
  {
    if counted.Some? { PassStep(ms, estimate, any, counter, budget, counted.value); }
  }

  lemma {:induction false} DropSplits(ms: seq<Message>)
    requires FirstDroppable(ms) >= 0
    ensures |OldestUnit(ms)| + |DropFirst(ms)| == |ms|
  {}

  /** n(n + 3) / 2 */
  function Triangle(n: nat): nat {
    if n == 0 then 0 else n + 1 + Triangle(n - 1)
  }

  lemma {:induction false} TriangleStep(n: nat, p: nat)
    requires p < n
    ensures n + n - p + Triangle(p) <= Triangle(n)
    decreases n
  {
    if p < n - 1 { TriangleStep(n - 1, p); }
  }

  lemma {:induction false} TriangleClosed(n: nat)
    ensures 2 * Triangle(n) == n * (n + 3)
    decreases n
  {
    if n > 0 { TriangleClosed(n - 1); }
  }

  /** For an arbitrary counter every pass drops something, so at most n(n + 3) / 2 messages are ever handed over. */
  lemma {:induction false} HandedAtMostQuadratic(ms: seq<Message>, tools: seq<Tool>, counter: Counter, budget: int)
    ensures Compact(ms, tools, counter, budget).handed <= Triangle(|ms|)
    decreases |ms|
  {
    if |ms| > 1 {
      TriangleStep(|ms|, 0);
      if Count(counter, ms, tools).Some? && Count(counter, ms, tools).value > budget {
        var count := Count(counter, ms, tools).value;
        var pass := RunPass(ms, count, false, counter, budget);
        PassHandsEachOnce(ms, count, false, counter, budget);
        if |pass.ms| < |ms| {
          TriangleStep(|ms|, |pass.ms|);
          HandedAtMostQuadratic(pass.ms, tools, counter, budget);
        }
      }
    }
  }

  /** For every additive counter, compaction ends with exactly the simple handler's
      transcript, and hands the counter at most 2n messages for n of them. */
  lemma {:induction false} FastIsSimple(ms: seq<Message>, tools: seq<Tool>, counter: Counter, budget: int,
                     cost: Message -> int, toolCost: seq<Tool> -> int)
    requires Additive(counter, cost, toolCost)
    ensures var c := Compact(ms, tools, counter, budget);
      c.ok && c.ms == Simple(ms, tools, false, counter, budget) && c.handed <= 2 * |ms|
  {
    if |ms| > 1 {
      var count := Total(ms, cost) + toolCost(tools);
      assert Count(counter, ms, tools) == Some(count);
      if count > budget {
        PassIsSimple(ms, tools, count, false, counter, budget, cost, toolCost);
        PassHandsEachOnce(ms, count, false, counter, budget);
        var pass := RunPass(ms, count, false, counter, budget);
        if |pass.ms| < |ms| {
          SettledStays(pass.ms, tools, counter, budget, cost, toolCost);
        }
      }
    }
  }

  lemma {:induction false} SettledStays(ms: seq<Message>, tools: seq<Tool>, counter: Counter, budget: int,
                     cost: Message -> int, toolCost: seq<Tool> -> int)
    requires Additive(counter, cost, toolCost) && AtRest(ms, tools, counter, budget)
    ensures var c := Compact(ms, tools, counter, budget);
      c.ok && c.ms == ms && c.handed <= |ms|
  {
    NoneDroppable(ms);
    if |ms| > 1 {
      var count := Total(ms, cost) + toolCost(tools);
      assert Count(counter, ms, tools) == Some(count);
      assert count > budget ==> PassDone(ms, count, false, budget);
    }
  }

  /** The simple handler drops exactly what has to go. */
  lemma {:induction false} SimpleIsNeeded(ms: seq<Message>, tools: seq<Tool>, any: bool, counter: Counter, budget: int)
    returns (trace: seq<seq<Message>>)
    requires forall xs {:trigger Count(counter, xs, tools)} :: Count(counter, xs, tools).Some?
    ensures Evictions(trace, ms, Simple(ms, tools, any, counter, budget)) && Needed(trace, any, tools, counter, budget)
    decreases |ms|
  {
    var count := Count(counter, ms, tools).value;
    MidExchangeMeans(ms);
    NoneDroppable(ms);
    if PassDone(ms, count, any, budget) {
      trace := [ms];
    } else {
      DropIsOldest(ms);
      SimpleStep(ms, tools, any, counter, budget, count);
      var rest := SimpleIsNeeded(DropFirst(ms), tools, true, counter, budget);
      EvictionsCons(ms, rest, Simple(ms, tools, any, counter, budget));
      NeededCons(ms, rest, any, tools, counter, budget);
      trace := [ms] + rest;
    }
  }

  lemma {:induction false} NeededCons(ms: seq<Message>, rest: seq<seq<Message>>, any: bool, tools: seq<Tool>,
                                      counter: Counter, budget: int)
    requires rest != [] && MustDrop(ms, any, tools, counter, budget) && Needed(rest, true, tools, counter, budget)
    ensures Needed([ms] + rest, any, tools, counter, budget)
  {
    var trace := [ms] + rest;
    forall k | 0 <= k < |trace| - 1 ensures MustDrop(trace[k], any || k > 0, tools, counter, budget) {
      if k > 0 { assert DropsAt(rest, k - 1) || !DropsAt(rest, k - 1); }
    }
  }

  /** So for an additive counter compaction is determined without looking at its code: it drops oldest units while a
      drop is called for and possible, and not one more. */
  lemma {:induction false} CompactionIsNeeded(ms: seq<Message>, tools: seq<Tool>, counter: Counter, budget: int,
                                              cost: Message -> int, toolCost: seq<Tool> -> int)
    returns (trace: seq<seq<Message>>)
    requires Additive(counter, cost, toolCost)
    ensures Evictions(trace, ms, Compact(ms, tools, counter, budget).ms)
    ensures Needed(trace, false, tools, counter, budget)
  {
    FastIsSimple(ms, tools, counter, budget, cost, toolCost);
    trace := SimpleIsNeeded(ms, tools, false, counter, budget);
  }
}
