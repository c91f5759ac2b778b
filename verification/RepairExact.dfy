/** Exactly what repair keeps, message by message, stated over the damaged transcript alone. */
module RepairExact {
  import opened Transcript
  import opened Sequences
  import opened Repair

  /** Everything behind `h` up to and including `i` is a tool result. */
  ghost predicate InRun(ms: seq<Message>, h: nat, i: nat) {
    h < i < |ms| && forall j :: h < j <= i ==> ms[j].role.Tool?
  }

  ghost predicate AnsweredAt(ms: seq<Message>, h: nat, id: string) {
    exists i: nat {:trigger InRun(ms, h, i)} :: InRun(ms, h, i) && ms[i].toolCallId == id
  }

  /** Every call of the message at `h` has a result in the run behind it. */
  ghost predicate Whole(ms: seq<Message>, h: nat)
    requires h < |ms|
  {
    forall c :: 0 <= c < |ms[h].toolCalls| ==> AnsweredAt(ms, h, ms[h].toolCalls[c].id)
  }

  ghost predicate NotYetAnswered(ms: seq<Message>, h: nat, i: nat) {
    i < |ms| && forall j :: h < j < i ==> ms[j].toolCallId != ms[i].toolCallId
  }

  /** The result at `i` is the first in the run behind `h` to answer one of its calls, all of which are answered. */
  ghost predicate FirstAnswer(ms: seq<Message>, h: nat, i: nat) {
    && InRun(ms, h, i) && !ms[h].role.Tool? && Whole(ms, h)
    && ms[i].toolCallId in Ids(ms[h].toolCalls) && NotYetAnswered(ms, h, i)
  }

  ghost predicate Survives(ms: seq<Message>, i: nat)
    requires i < |ms|
  {
    if ms[i].role.Tool? then exists h: nat {:trigger FirstAnswer(ms, h, i)} :: FirstAnswer(ms, h, i) else Whole(ms, i)
  }

  ghost function Survivors(ms: seq<Message>): (keep: seq<bool>)
    ensures |keep| == |ms| && forall i :: 0 <= i < |ms| ==> keep[i] == Survives(ms, i)
  {
    seq(|ms|, i requires 0 <= i < |ms| => Survives(ms, i))
  }

  predicate Any(id: string) {
    true
  }

  /** The message as it was, except that of calls with the same id only the first is left. */
  ghost predicate WithoutRepeats(m: Message, was: Message) {
    && m == was.(toolCalls := m.toolCalls)
    && if was.role.Tool? then m == was else Selects(m.toolCalls, was.toolCalls, Firsts(Ids(was.toolCalls), Any, {}))
  }

  ghost predicate PicksWithoutRepeats(out: seq<Message>, ms: seq<Message>, pos: seq<nat>) {
    |out| == |pos| && forall a :: 0 <= a < |pos| ==> pos[a] < |ms| && WithoutRepeats(out[a], ms[pos[a]])
  }

  /** `out` are, in order, exactly the survivors of `ms`. */
  ghost predicate Mends(out: seq<Message>, ms: seq<Message>) {
    exists pos {:trigger Lists(pos, Survivors(ms))} :: Lists(pos, Survivors(ms)) && PicksWithoutRepeats(out, ms, pos)
  }

  // ----- the two selections inside a unit -----

  ghost function FirstCalls(calls: seq<ToolCall>, seen: set<string>): (keep: seq<bool>)
    ensures |keep| == |calls|
  {
    Firsts(Ids(calls), Any, seen)
  }

  lemma {:induction false} FirstCallsCons(calls: seq<ToolCall>, tail: seq<ToolCall>, seen: set<string>)
    requires calls != [] && tail == calls[1..]
    ensures var first := calls[0].id !in seen;
      FirstCalls(calls, seen) == [first] + FirstCalls(tail, if first then seen + {calls[0].id} else seen)
    ensures [calls[0]] + tail == calls
  {
    FirstsCons(Ids(calls), Any, seen);
    assert Ids(calls)[1..] == Ids(tail);
  }

  lemma {:induction false} DedupeSelects(calls: seq<ToolCall>, seen: set<string>)
    ensures Selects(Dedupe(calls, seen), calls, FirstCalls(calls, seen))
    decreases |calls|
  {
    if calls == [] {
      SelectsNothing<ToolCall>();
      assert FirstCalls(calls, seen) == [];
    } else {
      var id, tail := calls[0].id, calls[1..];
      var first := id !in seen;
      var more := if first then seen + {id} else seen;
      DedupeSelects(tail, more);
      SelectsCons(calls[0], first, Dedupe(tail, more), tail, FirstCalls(tail, more));
      FirstCallsCons(calls, tail, seen);
    }
  }

  ghost function Wanted(wanted: set<string>): string -> bool {
    x => x in wanted
  }

  ghost function FirstResults(results: seq<Message>, wanted: set<string>, seen: set<string>): (keep: seq<bool>)
    ensures |keep| == |results|
  {
    Firsts(ResultIds(results), Wanted(wanted), seen)
  }

  lemma {:induction false} FirstResultsCons(results: seq<Message>, tail: seq<Message>, wanted: set<string>,
                                            seen: set<string>)
    requires results != [] && tail == results[1..]
    ensures var id := results[0].toolCallId;
      var first := id in wanted && id !in seen;
      FirstResults(results, wanted, seen) == [first] + FirstResults(tail, wanted, if first then seen + {id} else seen)
    ensures [results[0]] + tail == results
  {
    FirstsCons(ResultIds(results), Wanted(wanted), seen);
    assert ResultIds(results)[1..] == ResultIds(tail);
  }

  lemma {:induction false} AnswersSelect(results: seq<Message>, wanted: set<string>, seen: set<string>)
    ensures Selects(FirstAnswers(results, wanted, seen), results, FirstResults(results, wanted, seen))
    decreases |results|
  {
    if results == [] {
      SelectsNothing<Message>();
      assert FirstResults(results, wanted, seen) == [];
    } else {
      var id, tail := results[0].toolCallId, results[1..];
      var first := id in wanted && id !in seen;
      var more := if first then seen + {id} else seen;
      AnswersSelect(tail, wanted, more);
      SelectsCons(results[0], first, FirstAnswers(tail, wanted, more), tail, FirstResults(tail, wanted, more));
      FirstResultsCons(results, tail, wanted, seen);
    }
  }

  // ----- survival is local -----

  /** No unit reaches position `p`. */
  ghost predicate CutAt(ms: seq<Message>, p: nat)
    requires p <= |ms|
  {
    forall h: nat {:trigger InRun(ms, h, p)} :: InRun(ms, h, p) ==> ms[h].role.Tool? || ms[h].toolCalls == []
  }

  lemma {:induction false} InRunShift(ms: seq<Message>, p: nat, h: nat, i: nat)
    requires p <= |ms|
    ensures InRun(ms[p..], h, i) <==> InRun(ms, p + h, p + i)
  {
    var rest := ms[p..];
    if InRun(ms, p + h, p + i) {
      assert forall j :: h < j <= i ==> rest[j] == ms[p + j];
    }
    if InRun(rest, h, i) {
      assert forall j :: p + h < j <= p + i ==> ms[j] == rest[j - p];
    }
  }

  lemma {:induction false} AnsweredShift(ms: seq<Message>, p: nat, h: nat, id: string)
    requires p + h < |ms|
    ensures AnsweredAt(ms[p..], h, id) <==> AnsweredAt(ms, p + h, id)
  {
    if i: nat :| InRun(ms[p..], h, i) && ms[p..][i].toolCallId == id {
      InRunShift(ms, p, h, i);
      assert InRun(ms, p + h, p + i);
    }
    if i: nat :| InRun(ms, p + h, i) && ms[i].toolCallId == id {
      InRunShift(ms, p, h, i - p);
      assert InRun(ms[p..], h, i - p);
    }
  }

  lemma {:induction false} WholeShift(ms: seq<Message>, p: nat, h: nat)
    requires p + h < |ms|
    ensures Whole(ms[p..], h) <==> Whole(ms, p + h)
  {
    var calls := ms[p + h].toolCalls;
    forall c | 0 <= c < |calls| ensures AnsweredAt(ms[p..], h, calls[c].id) <==> AnsweredAt(ms, p + h, calls[c].id) {
      AnsweredShift(ms, p, h, calls[c].id);
    }
  }

  lemma {:induction false} NotYetShift(ms: seq<Message>, p: nat, h: nat, i: nat)
    requires p + i < |ms|
    ensures NotYetAnswered(ms[p..], h, i) <==> NotYetAnswered(ms, p + h, p + i)
  {
    var rest := ms[p..];
    assert rest[i] == ms[p + i];
    if NotYetAnswered(rest, h, i) {
      forall j | p + h < j < p + i ensures ms[j].toolCallId != ms[p + i].toolCallId {
        assert rest[j - p] == ms[j];
      }
    }
    if NotYetAnswered(ms, p + h, p + i) {
      forall j | h < j < i ensures rest[j].toolCallId != rest[i].toolCallId {
        assert rest[j] == ms[p + j];
      }
    }
  }

  lemma {:induction false} FirstAnswerShift(ms: seq<Message>, p: nat, h: nat, i: nat)
    requires p + h < |ms|
    ensures FirstAnswer(ms[p..], h, i) <==> FirstAnswer(ms, p + h, p + i)
  {
    InRunShift(ms, p, h, i);
    WholeShift(ms, p, h);
    if p + i < |ms| { NotYetShift(ms, p, h, i); }
  }

  lemma {:induction false} SurvivesShift(ms: seq<Message>, p: nat, i: nat)
    requires p + i < |ms| && CutAt(ms, p)
    ensures Survives(ms[p..], i) <==> Survives(ms, p + i)
  {
    var q := p + i;
    WholeShift(ms, p, i);
    if h: nat :| FirstAnswer(ms[p..], h, i) {
      FirstAnswerShift(ms, p, h, i);
      assert FirstAnswer(ms, p + h, q);
    }
    if h: nat :| FirstAnswer(ms, h, q) {
      assert h >= p by {
        if h < p { assert InRun(ms, h, p); }
      }
      FirstAnswerShift(ms, p, h - p, i);
      assert FirstAnswer(ms[p..], h - p, i);
    }
  }

  lemma {:induction false} SurvivorsCut(ms: seq<Message>, p: nat, front: seq<bool>)
    requires p <= |ms| && CutAt(ms, p) && |front| == p && forall i :: 0 <= i < p ==> front[i] == Survives(ms, i)
    ensures Survivors(ms) == front + Survivors(ms[p..])
  {
    var rest := Survivors(ms[p..]);
    forall i | p <= i < |ms| ensures Survivors(ms)[i] == rest[i - p] {
      SurvivesShift(ms, p, i - p);
    }
  }

  // ----- message by message -----

  function Mended(m: Message): Message {
    if m.role.Tool? then m else m.(toolCalls := Dedupe(m.toolCalls, {}))
  }

  function AllMended(ms: seq<Message>): (r: seq<Message>)
    ensures |r| == |ms|
  {
    seq(|ms|, i requires 0 <= i < |ms| => Mended(ms[i]))
  }

  ghost predicate Keeps(ms: seq<Message>) {
    Selects(Repaired(ms), AllMended(ms), Survivors(ms))
  }

  lemma {:induction false} NothingKept()
    ensures Keeps([])
  {
    SelectsNothing<Message>();
    assert AllMended([]) == [] && Survivors([]) == [];
  }

  lemma {:induction false} KeepsPart(ms: seq<Message>, p: nat, part: seq<Message>, front: seq<bool>)
    requires p <= |ms| && CutAt(ms, p) && |front| == p && forall i :: 0 <= i < p ==> front[i] == Survives(ms, i)
    requires Selects(part, AllMended(ms[..p]), front) && Keeps(ms[p..]) && Repaired(ms) == part + Repaired(ms[p..])
    ensures Keeps(ms)
  {
    SurvivorsCut(ms, p, front);
    SelectsConcat(part, AllMended(ms[..p]), front, Repaired(ms[p..]), AllMended(ms[p..]), Survivors(ms[p..]));
    assert AllMended(ms) == AllMended(ms[..p]) + AllMended(ms[p..]);
  }

  lemma {:induction false} SingleAtFront(ms: seq<Message>)
    requires ms != [] && (ms[0].role.Tool? || ms[0].toolCalls == [])
    ensures CutAt(ms, 1) && (Survives(ms, 0) <==> !ms[0].role.Tool?)
    ensures Repaired(ms) == (if ms[0].role.Tool? then [] else [ms[0]]) + Repaired(ms[1..])
    ensures AllMended(ms[..1]) == [ms[0]]
  {}

  /** A message at the front that belongs to no unit: a stray result goes, anything without calls stays. */
  lemma {:induction false} KeepsSingle(ms: seq<Message>)
    requires ms != [] && (ms[0].role.Tool? || ms[0].toolCalls == []) && Keeps(ms[1..])
    ensures Keeps(ms)
  {
    var stays := !ms[0].role.Tool?;
    SingleAtFront(ms);
    SelectsOne(ms[0], stays);
    KeepsPart(ms, 1, if stays then [ms[0]] else [], [stays]);
  }

  /** The run behind the first message, and what it answers. */
  lemma {:induction false} RunBehindFirst(ms: seq<Message>, n: nat, i: nat)
    requires ms != [] && n == ToolRun(ms[1..])
    ensures InRun(ms, 0, i) <==> 1 <= i <= n
  {
    ToolRunIsRun(ms[1..]);
    assert forall j :: 1 <= j < |ms| ==> ms[j] == ms[1..][j - 1];
  }

  lemma {:induction false} AnsweredFirst(ms: seq<Message>, n: nat, id: string)
    requires ms != [] && n == ToolRun(ms[1..])
    ensures AnsweredAt(ms, 0, id) <==> id in ResultIds(ms[1..1 + n])
  {
    var results := ms[1..1 + n];
    if i: nat :| InRun(ms, 0, i) && ms[i].toolCallId == id {
      RunBehindFirst(ms, n, i);
      assert ResultIds(results)[i - 1] == id;
    }
    if id in ResultIds(results) {
      var i :| 0 <= i < |ResultIds(results)| && ResultIds(results)[i] == id;
      RunBehindFirst(ms, n, i + 1);
      assert InRun(ms, 0, i + 1) && ms[i + 1] == results[i];
    }
  }

  lemma {:induction false} WholeFirst(ms: seq<Message>, n: nat)
    requires ms != [] && n == ToolRun(ms[1..])
    ensures Whole(ms, 0) <==> AllAnswered(ms[0].toolCalls, ms[1..1 + n])
  {
    forall c | 0 <= c < |ms[0].toolCalls|
      ensures AnsweredAt(ms, 0, ms[0].toolCalls[c].id) <==> ms[0].toolCalls[c].id in ResultIds(ms[1..1 + n])
    {
      AnsweredFirst(ms, n, ms[0].toolCalls[c].id);
    }
  }

  /** A result of the first unit survives as the first answer to a call of a whole unit. */
  lemma {:induction false} ResultOfFirst(ms: seq<Message>, n: nat, q: nat)
    requires ms != [] && !ms[0].role.Tool? && n == ToolRun(ms[1..]) && 1 <= q <= n
    ensures ms[q].role.Tool?
    ensures Survives(ms, q) <==>
      Whole(ms, 0) && IsFirst(ResultIds(ms[1..1 + n]), Wanted(Elems(Ids(ms[0].toolCalls))), {}, q - 1)
  {
    var ids, i := ResultIds(ms[1..1 + n]), q - 1;
    RunBehindFirst(ms, n, q);
    assert forall j :: 1 <= j <= n ==> ids[j - 1] == ms[j].toolCallId;
    if h: nat :| FirstAnswer(ms, h, q) {
      assert h == 0;
      forall j | 0 <= j < i ensures ids[j] != ids[i] { assert ms[j + 1].toolCallId != ms[q].toolCallId; }
    }
    if Whole(ms, 0) && IsFirst(ids, Wanted(Elems(Ids(ms[0].toolCalls))), {}, i) {
      forall j | 0 < j < q ensures ms[j].toolCallId != ms[q].toolCallId { assert ids[j - 1] != ids[i]; }
      assert FirstAnswer(ms, 0, q);
    }
  }

  function NoMarks(n: nat): seq<bool> {
    seq(n, i => false)
  }

  ghost function UnitMarks(head: Message, results: seq<Message>): (keep: seq<bool>)
    ensures |keep| == 1 + |results|
  {
    if AllAnswered(head.toolCalls, results) then [true] + FirstResults(results, Elems(Ids(head.toolCalls)), {})
    else [false] + NoMarks(|results|)
  }

  lemma {:induction false} UnitMarked(ms: seq<Message>, n: nat, i: nat)
    requires ms != [] && !ms[0].role.Tool? && n == ToolRun(ms[1..]) && i <= n
    ensures UnitMarks(ms[0], ms[1..1 + n])[i] == Survives(ms, i)
  {
    WholeFirst(ms, n);
    if i > 0 { ResultOfFirst(ms, n, i); }
  }

  lemma {:induction false} NoneSelected<T>(s: seq<T>)
    ensures Selects([], s, NoMarks(|s|))
  {
    SelectsBy([], [], s, NoMarks(|s|));
  }

  lemma {:induction false} UnitSelected(head: Message, results: seq<Message>)
    requires !head.role.Tool? && AllTool(results)
    ensures Selects(RepairUnit(head, results), [Mended(head)] + results, UnitMarks(head, results))
  {
    var wanted := Elems(Ids(head.toolCalls));
    DedupeAnswers(head.toolCalls, results);
    if AllAnswered(head.toolCalls, results) {
      AnswersSelect(results, wanted, {});
      SelectsCons(Mended(head), true, FirstAnswers(results, wanted, {}), results, FirstResults(results, wanted, {}));
    } else {
      NoneSelected(results);
      SelectsCons(Mended(head), false, [], results, NoMarks(|results|));
    }
  }

  lemma {:induction false} UnitAtFront(ms: seq<Message>, n: nat)
    requires ms != [] && !ms[0].role.Tool? && n == ToolRun(ms[1..])
    ensures AllTool(ms[1..1 + n]) && CutAt(ms, 1 + n)
    ensures AllMended(ms[..1 + n]) == [Mended(ms[0])] + ms[1..1 + n]
  {
    ToolRunIsRun(ms[1..]);
    assert 1 + n < |ms| ==> !ms[1 + n].role.Tool?;
    assert forall i :: 1 <= i < 1 + n ==> ms[i] == ms[1..][i - 1];
  }

  lemma {:induction false} KeepsUnit(ms: seq<Message>, n: nat)
    requires ms != [] && !ms[0].role.Tool? && ms[0].toolCalls != [] && n == ToolRun(ms[1..]) && Keeps(ms[1 + n..])
    ensures Keeps(ms)
  {
    var results := ms[1..1 + n];
    UnitAtFront(ms, n);
    RepairedHead(ms, ms[1..], results, ms[1 + n..]);
    UnitSelected(ms[0], results);
    forall i | 0 <= i < 1 + n ensures UnitMarks(ms[0], results)[i] == Survives(ms, i) { UnitMarked(ms, n, i); }
    KeepsPart(ms, 1 + n, RepairUnit(ms[0], results), UnitMarks(ms[0], results));
  }

  lemma {:induction false} KeepsAll(ms: seq<Message>)
    ensures Keeps(ms)
    decreases |ms|
  {
    if ms == [] {
      NothingKept();
    } else if ms[0].role.Tool? || ms[0].toolCalls == [] {
      KeepsAll(ms[1..]);
      KeepsSingle(ms);
    } else {
      var n := ToolRun(ms[1..]);
      KeepsAll(ms[1 + n..]);
      KeepsUnit(ms, n);
    }
  }

  lemma {:induction false} MendedIsWithoutRepeats(m: Message)
    ensures WithoutRepeats(Mended(m), m)
  {
    DedupeSelects(m.toolCalls, {});
  }

  lemma {:induction false} MendsBy(pos: seq<nat>, out: seq<Message>, ms: seq<Message>)
    requires Lists(pos, Survivors(ms)) && Picks(out, AllMended(ms), pos)
    ensures Mends(out, ms)
  {
    forall a | 0 <= a < |pos| ensures pos[a] < |ms| && WithoutRepeats(out[a], ms[pos[a]]) {
      MendedIsWithoutRepeats(ms[pos[a]]);
    }
  }

  /** Repair keeps, in order and as they were up to repeated calls, exactly these messages: those without calls, those
      whose every call has a result in the run behind them, and the first such result for every id they call. */
  lemma {:induction false} RepairMends(ms: seq<Message>)
    ensures Mends(Repaired(ms), ms)
  {
    KeepsAll(ms);
    var pos := Selection(Repaired(ms), AllMended(ms), Survivors(ms));
    MendsBy(pos, Repaired(ms), ms);
  }

  lemma {:induction false} PickedUnique(out: seq<Message>, out': seq<Message>, ms: seq<Message>, pos: seq<nat>)
    requires PicksWithoutRepeats(out, ms, pos) && PicksWithoutRepeats(out', ms, pos)
    ensures out == out'
  {
    forall a | 0 <= a < |pos| ensures out[a] == out'[a] {
      SameWithoutRepeats(out[a], out'[a], ms[pos[a]]);
    }
  }

  /** And nothing else is a repair in this sense. */
  lemma {:induction false} MendsUnique(out: seq<Message>, out': seq<Message>, ms: seq<Message>)
    requires Mends(out, ms) && Mends(out', ms)
    ensures out == out'
  {
    var pos :| Lists(pos, Survivors(ms)) && PicksWithoutRepeats(out, ms, pos);
    var pos' :| Lists(pos', Survivors(ms)) && PicksWithoutRepeats(out', ms, pos');
    ListsUnique(pos, pos', Survivors(ms));
    PickedUnique(out, out', ms, pos);
  }

  lemma {:induction false} SameWithoutRepeats(m: Message, m': Message, was: Message)
    requires WithoutRepeats(m, was) && WithoutRepeats(m', was)
    ensures m == m'
  {
    if !was.role.Tool? {
      SelectsUnique(m.toolCalls, m'.toolCalls, was.toolCalls, Firsts(Ids(was.toolCalls), Any, {}));
    }
  }
}
