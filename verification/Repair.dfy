/** Transcript repair: damaged units are deleted so that the rest is legal again. */
module Repair {
  import opened Transcript
  import opened Validators

  // ----- specification -----

  /** Length of the run of tool messages at the front. */
  function ToolRun(ms: seq<Message>): (n: nat)
    ensures n <= |ms|
  {
    if ms == [] || !ms[0].role.Tool? then 0 else 1 + ToolRun(ms[1..])
  }

  lemma {:induction false} ToolRunIsRun(ms: seq<Message>)
    ensures var n := ToolRun(ms);
      (forall i :: 0 <= i < n ==> ms[i].role.Tool?) && (n < |ms| ==> !ms[n].role.Tool?)
    decreases |ms|
  {
    if ms != [] && ms[0].role.Tool? {
      ToolRunIsRun(ms[1..]);
      assert forall i :: 0 < i < |ms| ==> ms[i] == ms[1..][i - 1];
    }
  }

  /** The first call of every id not in `seen`. */
  function Dedupe(calls: seq<ToolCall>, seen: set<string>): seq<ToolCall> {
    if calls == [] then []
    else if calls[0].id in seen then Dedupe(calls[1..], seen)
    else [calls[0]] + Dedupe(calls[1..], seen + {calls[0].id})
  }

  /** The first result for every wanted id not in `seen`. */
  function FirstAnswers(results: seq<Message>, wanted: set<string>, seen: set<string>): seq<Message> {
    if results == [] then []
    else if results[0].toolCallId !in wanted || results[0].toolCallId
      in seen then FirstAnswers(results[1..], wanted, seen)
    else [results[0]] + FirstAnswers(results[1..], wanted, seen + {results[0].toolCallId})
  }

  predicate AllAnswered(calls: seq<ToolCall>, results: seq<Message>) {
    forall i :: 0 <= i < |calls| ==> calls[i].id in ResultIds(results)
  }

  function RepairUnit(head: Message, results: seq<Message>): seq<Message> {
    var calls := Dedupe(head.toolCalls, {});
    if AllAnswered(calls, results) then
      [head.(toolCalls := calls)] + FirstAnswers(results, Elems(Ids(head.toolCalls)), {})
    else []
  }

  function Repaired(ms: seq<Message>): seq<Message>
    decreases |ms|
  {
    if ms == [] then []
    else if ms[0].role.Tool? then Repaired(ms[1..])
    else if ms[0].toolCalls == [] then [ms[0]] + Repaired(ms[1..])
    else
      var n := ToolRun(ms[1..]);
      RepairUnit(ms[0], ms[1..1 + n]) + Repaired(ms[1 + n..])
  }

  // ----- the code -----

  method DedupeToolCalls(toolCalls: seq<ToolCall>) returns (wanted: set<string>, calls: seq<ToolCall>)
    ensures wanted == Elems(Ids(toolCalls)) && calls == Dedupe(toolCalls, {})
  {
    wanted, calls := {}, [];
    assert toolCalls[0..] == toolCalls;
    for n := 0 to |toolCalls|
      invariant wanted == Elems(Ids(toolCalls[..n])) && DedupedUpTo(toolCalls, n, wanted, calls)
    {
      var call := toolCalls[n];
      IdsSnoc(toolCalls, n);
      DedupeNext(toolCalls, n, wanted, calls);
      if call.id in wanted {
        continue;
      }
      wanted := wanted + {call.id};
      calls := calls + [call];
    }
    assert toolCalls[..|toolCalls|] == toolCalls;
  }

  /** The first `n` calls are deduplicated, the rest is still to do. */
  ghost predicate DedupedUpTo(toolCalls: seq<ToolCall>, n: nat, wanted: set<string>, calls: seq<ToolCall>)
    requires n <= |toolCalls|
  {
    calls + Dedupe(toolCalls[n..], wanted) == Dedupe(toolCalls, {})
  }

  lemma {:induction false} DedupeNext(toolCalls: seq<ToolCall>, n: nat, wanted: set<string>, calls: seq<ToolCall>)
    requires n < |toolCalls| && DedupedUpTo(toolCalls, n, wanted, calls)
    ensures if toolCalls[n].id in wanted then DedupedUpTo(toolCalls, n + 1, wanted, calls)
            else DedupedUpTo(toolCalls, n + 1, wanted + {toolCalls[n].id}, calls + [toolCalls[n]])
  {
    var call := toolCalls[n];
    assert toolCalls[n..][1..] == toolCalls[n + 1..];
    ConcatAssoc(calls, [call], Dedupe(toolCalls[n + 1..], wanted + {call.id}));
  }

  lemma {:induction false} IdsSnoc(calls: seq<ToolCall>, n: nat)
    requires n < |calls|
    ensures Elems(Ids(calls[..n + 1])) == Elems(Ids(calls[..n])) + {calls[n].id}
  {
    assert Ids(calls[..n + 1]) == Ids(calls[..n]) + [calls[n].id];
    ElemsSnoc(Ids(calls[..n]), calls[n].id);
  }

  /** The contiguous results behind `start` and the ids they answer. */
  method CollectAnswers(ms: seq<Message>, start: nat) returns (end: nat, answered: set<string>)
    requires start <= |ms|
    ensures end == start + ToolRun(ms[start..]) && answered == Elems(ResultIds(ms[start..end]))
  {
    end, answered := start, {};
    while end < |ms| && ms[end].role.Tool?
      invariant start <= end <= |ms|
      invariant ToolRun(ms[start..]) == end - start + ToolRun(ms[end..])
      invariant answered == Elems(ResultIds(ms[start..end]))
    {
      AnswerStep(ms, start, end);
      answered := answered + {ms[end].toolCallId};
      end := end + 1;
    }
  }

  lemma {:induction false} AnswerStep(ms: seq<Message>, start: nat, end: nat)
    requires start <= end < |ms| && ms[end].role.Tool?
    ensures ToolRun(ms[end..]) == 1 + ToolRun(ms[end + 1..])
    ensures Elems(ResultIds(ms[start..end + 1])) == Elems(ResultIds(ms[start..end])) + {ms[end].toolCallId}
  {
    assert ms[end..][1..] == ms[end + 1..];
    assert ms[start..end + 1] == ms[start..end] + [ms[end]];
    assert ResultIds(ms[start..end + 1]) == ResultIds(ms[start..end]) + [ms[end].toolCallId];
  }

  method SelectAnswers(results: seq<Message>, wanted: set<string>) returns (kept: seq<Message>)
    ensures kept == FirstAnswers(results, wanted, {})
  {
    kept := [];
    var seen := {};
    for n := 0 to |results|
      invariant kept + FirstAnswers(results[n..], wanted, seen) == FirstAnswers(results, wanted, {})
    {
      var result := results[n];
      assert results[n..][1..] == results[n + 1..];
      if result.toolCallId !in wanted {
        continue;
      }
      if result.toolCallId in seen {
        continue;
      }
      seen := seen + {result.toolCallId};
      kept := kept + [result];
    }
  }

  method RepairToolUnit(ms: seq<Message>, index: nat) returns (unit: seq<Message>, end: nat)
    requires index < |ms|
    ensures end == index + 1 + ToolRun(ms[index + 1..])
    ensures unit == RepairUnit(ms[index], ms[index + 1..end])
  {
    var message := ms[index];
    var wanted, calls := DedupeToolCalls(message.toolCalls);
    DedupeFixed(message.toolCalls, {});
    if |calls| != |message.toolCalls| {
      message := message.(toolCalls := calls);
    }
    var answered;
    end, answered := CollectAnswers(ms, index + 1);
    var results := ms[index + 1..end];
    for n := 0 to |message.toolCalls|
      invariant forall i :: 0 <= i < n ==> calls[i].id in answered
    {
      if message.toolCalls[n].id !in answered {
        assert !AllAnswered(calls, results);
        return [], end;
      }
    }
    assert AllAnswered(calls, results);
    var kept := SelectAnswers(results, wanted);
    unit := [message] + kept;
  }

  method RepairTranscript(ms: seq<Message>) returns (repaired: seq<Message>)
    ensures repaired == Repaired(ms)
  {
    repaired := [];
    var index := 0;
    assert ms[0..] == ms;
    while index < |ms|
      invariant index <= |ms| && RepairedUpTo(ms, index, repaired)
    {
      var message := ms[index];
      if message.role.Tool? {
        SkipResult(ms, index, repaired);
        index := index + 1;
        continue;
      }
      if message.toolCalls == [] {
        KeepPlain(ms, index, repaired);
        repaired := repaired + [message];
        index := index + 1;
        continue;
      }
      var unit, end := RepairToolUnit(ms, index);
      RepairedUnit(ms, index, end);
      Advance(ms, index, end, repaired, unit);
      repaired := repaired + unit;
      index := end;
    }
  }

  /** What is in front of `index` is repaired, the rest is still to do. */
  ghost predicate RepairedUpTo(ms: seq<Message>, index: nat, repaired: seq<Message>)
    requires index <= |ms|
  {
    repaired + Repaired(ms[index..]) == Repaired(ms)
  }

  lemma {:induction false} SkipResult(ms: seq<Message>, p: nat, repaired: seq<Message>)
    requires p < |ms| && RepairedUpTo(ms, p, repaired) && ms[p].role.Tool?
    ensures RepairedUpTo(ms, p + 1, repaired)
  {
    assert ms[p..][1..] == ms[p + 1..];
  }

  lemma {:induction false} KeepPlain(ms: seq<Message>, p: nat, repaired: seq<Message>)
    requires p < |ms| && RepairedUpTo(ms, p, repaired) && !ms[p].role.Tool? && ms[p].toolCalls == []
    ensures RepairedUpTo(ms, p + 1, repaired + [ms[p]])
  {
    assert ms[p..][1..] == ms[p + 1..];
    Advance(ms, p, p + 1, repaired, [ms[p]]);
  }

  lemma {:induction false} Advance(ms: seq<Message>, p: nat, end: nat, repaired: seq<Message>, part: seq<Message>)
    requires p <= end <= |ms| && RepairedUpTo(ms, p, repaired) && Repaired(ms[p..]) == part + Repaired(ms[end..])
    ensures RepairedUpTo(ms, end, repaired + part)
  {
    ConcatAssoc(repaired, part, Repaired(ms[end..]));
  }

  lemma {:induction false} RepairedUnit(ms: seq<Message>, p: nat, end: nat)
    requires p < |ms| && !ms[p].role.Tool? && ms[p].toolCalls != [] && end == p + 1 + ToolRun(ms[p + 1..])
    ensures Repaired(ms[p..]) == RepairUnit(ms[p], ms[p + 1..end]) + Repaired(ms[end..])
  {
    SliceOfSuffix(ms, p, end - p - 1);
    RepairedHead(ms[p..], ms[p + 1..], ms[p + 1..end], ms[end..]);
  }

  lemma {:induction false} RepairedHead(ms: seq<Message>, tail: seq<Message>, results: seq<Message>, rest: seq<Message>)
    requires ms != [] && !ms[0].role.Tool? && ms[0].toolCalls != [] && tail == ms[1..]
    requires results == ms[1..1 + ToolRun(tail)] && rest == ms[1 + ToolRun(tail)..]
    ensures Repaired(ms) == RepairUnit(ms[0], results) + Repaired(rest)
  {}

  // ----- deduplication -----

  lemma {:induction false} DedupeFixed(calls: seq<ToolCall>, seen: set<string>)
    ensures |Dedupe(calls, seen)| <= |calls|
    ensures |Dedupe(calls, seen)| == |calls| ==> Dedupe(calls, seen) == calls
    decreases |calls|
  {
    if calls != [] {
      DedupeFixed(calls[1..], seen);
      DedupeFixed(calls[1..], seen + {calls[0].id});
    }
  }

  /** Deduplication keeps exactly the ids not yet seen, each once. */
  lemma {:induction false} DedupeIds(calls: seq<ToolCall>, seen: set<string>)
    ensures Elems(Ids(Dedupe(calls, seen))) == Elems(Ids(calls)) - seen
    ensures Distinct(Ids(Dedupe(calls, seen)))
    ensures forall c :: c in Dedupe(calls, seen) ==> c in calls
    decreases |calls|
  {
    if calls != [] {
      var id, tail := calls[0].id, calls[1..];
      var seen' := if id in seen then seen else seen + {id};
      DedupeIds(tail, seen');
      var rest := Dedupe(tail, seen');
      assert Ids(calls) == [id] + Ids(tail);
      ElemsCons(id, Ids(tail));
      if id !in seen {
        assert Ids(Dedupe(calls, seen)) == [id] + Ids(rest);
        ElemsCons(id, Ids(rest));
        DistinctCons(id, Ids(rest));
        assert id !in Elems(Ids(rest));
      }
    }
  }

  lemma {:induction false} DedupeDistinct(calls: seq<ToolCall>, seen: set<string>)
    requires Distinct(Ids(calls)) && Elems(Ids(calls)) !! seen
    ensures Dedupe(calls, seen) == calls
    decreases |calls|
  {
    if calls != [] {
      var id, tail := calls[0].id, calls[1..];
      assert Ids(calls) == [id] + Ids(tail);
      ElemsCons(id, Ids(tail));
      DistinctCons(id, Ids(tail));
      DedupeDistinct(tail, seen + {id});
    }
  }

  /** The selected answers are exactly the wanted ids that were answered, each once. */
  lemma {:induction false} FirstAnswersIds(results: seq<Message>, wanted: set<string>, seen: set<string>)
    ensures Elems(ResultIds(FirstAnswers(results, wanted, seen))) == (Elems(ResultIds(results)) * wanted) - seen
    ensures Distinct(ResultIds(FirstAnswers(results, wanted, seen)))
    decreases |results|
  {
    if results != [] {
      var id, tail := results[0].toolCallId, results[1..];
      var keep := id in wanted && id !in seen;
      var seen' := if keep then seen + {id} else seen;
      FirstAnswersIds(tail, wanted, seen');
      var rest := FirstAnswers(tail, wanted, seen');
      assert ResultIds(results) == [id] + ResultIds(tail);
      ElemsCons(id, ResultIds(tail));
      if keep {
        assert ResultIds(FirstAnswers(results, wanted, seen)) == [id] + ResultIds(rest);
        ElemsCons(id, ResultIds(rest));
        DistinctCons(id, ResultIds(rest));
        assert id !in Elems(ResultIds(rest));
      }
    }
  }

  lemma {:induction false} FirstAnswersTool(results: seq<Message>, wanted: set<string>, seen: set<string>)
    requires AllTool(results)
    ensures AllTool(FirstAnswers(results, wanted, seen))
    decreases |results|
  {
    if results != [] {
      var id := results[0].toolCallId;
      FirstAnswersTool(results[1..], wanted, if id in wanted && id !in seen then seen + {id} else seen);
    }
  }

  lemma {:induction false} FirstAnswersDistinct(results: seq<Message>, wanted: set<string>, seen: set<string>)
    requires Distinct(ResultIds(results)) && Elems(ResultIds(results)) <= wanted - seen
    ensures FirstAnswers(results, wanted, seen) == results
    decreases |results|
  {
    if results != [] {
      var id, tail := results[0].toolCallId, results[1..];
      assert ResultIds(results) == [id] + ResultIds(tail);
      ElemsCons(id, ResultIds(tail));
      DistinctCons(id, ResultIds(tail));
      FirstAnswersDistinct(tail, wanted, seen + {id});
    }
  }

  // ----- what repair guarantees -----

  /** Either the unit goes entirely, or what is left answers every remaining call exactly once. */
  lemma {:induction false} RepairUnitAnswered(head: Message, results: seq<Message>)
    requires AllTool(results)
    ensures RepairUnit(head, results) != [] ==>
      && RepairUnit(head, results)[0] == head.(toolCalls := Dedupe(head.toolCalls, {}))
      && AnsweredBy(RepairUnit(head, results)[0].toolCalls, RepairUnit(head, results)[1..])
    ensures head.toolCalls != [] ==> Dedupe(head.toolCalls, {}) != []
  {
    var calls := Dedupe(head.toolCalls, {});
    var wanted := Elems(Ids(head.toolCalls));
    DedupeIds(head.toolCalls, {});
    if AllAnswered(calls, results) {
      var kept := FirstAnswers(results, wanted, {});
      FirstAnswersIds(results, wanted, {});
      FirstAnswersTool(results, wanted, {});
      forall x | x in wanted ensures x in Elems(ResultIds(results)) {
        assert x in Elems(Ids(calls));
        assert x in Ids(calls);
        var i :| 0 <= i < |Ids(calls)| && Ids(calls)[i] == x;
        assert calls[i].id == x;
      }
      assert Elems(ResultIds(kept)) == Elems(Ids(calls));
      DistinctElems(ResultIds(kept));
      DistinctElems(Ids(calls));
      assert forall x :: x in ResultIds(kept) ==> x in Elems(Ids(calls));
      MembersAnsweredBy(calls, kept);
      assert RepairUnit(head, results)[1..] == kept;
    }
  }

  /** A unit that is already answered exactly once per call is left as it is. */
  lemma {:induction false} RepairUnitFixed(head: Message, results: seq<Message>)
    requires AnsweredBy(head.toolCalls, results)
    ensures RepairUnit(head, results) == [head] + results
  {
    AnsweredByMembers(head.toolCalls, results);
    DedupeDistinct(head.toolCalls, {});
    FirstAnswersDistinct(results, Elems(Ids(head.toolCalls)), {});
    forall i | 0 <= i < |head.toolCalls| ensures head.toolCalls[i].id in ResultIds(results) {
      assert Ids(head.toolCalls)[i] == head.toolCalls[i].id;
    }
  }

  lemma {:induction false} ToolRunConcat(a: seq<Message>, b: seq<Message>)
    requires b == [] || !b[0].role.Tool?
    ensures ToolRun(a + b) == ToolRun(a)
    decreases |a|
  {
    if a == [] {
      assert a + b == b;
    } else {
      assert (a + b)[1..] == a[1..] + b;
      ToolRunConcat(a[1..], b);
    }
  }

  /** Repair works unit by unit: it can be cut at any message that is not a tool result. */
  lemma {:induction false} RepairedConcat(a: seq<Message>, b: seq<Message>)
    requires b == [] || !b[0].role.Tool?
    ensures Repaired(a + b) == Repaired(a) + Repaired(b)
    decreases |a|
  {
    if a == [] {
      assert a + b == b;
    } else {
      assert (a + b)[1..] == a[1..] + b;
      if a[0].role.Tool? {
        RepairedConcat(a[1..], b);
      } else if a[0].toolCalls == [] {
        RepairedConcat(a[1..], b);
        ConcatAssoc([a[0]], Repaired(a[1..]), Repaired(b));
      } else {
        var n := ToolRun(a[1..]);
        ToolRunConcat(a[1..], b);
        assert (a + b)[1..1 + n] == a[1..1 + n] && (a + b)[1 + n..] == a[1 + n..] + b;
        RepairedConcat(a[1 + n..], b);
        ConcatAssoc(RepairUnit(a[0], a[1..1 + n]), Repaired(a[1 + n..]), Repaired(b));
      }
    }
  }

  lemma {:induction false} RepairedStartsLegally(ms: seq<Message>)
    ensures Repaired(ms) != [] ==> !Repaired(ms)[0].role.Tool?
    decreases |ms|
  {
    if ms != [] {
      if ms[0].role.Tool? {
        RepairedStartsLegally(ms[1..]);
      } else if ms[0].toolCalls != [] {
        RepairedStartsLegally(ms[1 + ToolRun(ms[1..])..]);
      }
    }
  }

  lemma {:induction false} ToolRunAppend(a: seq<Message>, b: seq<Message>)
    requires AllTool(a)
    ensures ToolRun(a + b) == |a| + ToolRun(b)
    decreases |a|
  {
    if a == [] {
      assert a + b == b;
    } else {
      assert (a + b)[1..] == a[1..] + b;
      ToolRunAppend(a[1..], b);
    }
  }

  /** Results that no unit claims are dropped. */
  lemma {:induction false} RepairedSkipsRun(ms: seq<Message>)
    ensures Repaired(ms) == Repaired(ms[ToolRun(ms)..])
    decreases |ms|
  {
    var n := ToolRun(ms);
    if n == 0 {
      assert ms[n..] == ms;
    } else {
      RepairedSkipsRun(ms[1..]);
      assert ms[1..][n - 1..] == ms[n..];
    }
  }

  lemma {:induction false} NothingLeftToAnswer(results: seq<Message>, wanted: set<string>, seen: set<string>)
    requires wanted <= seen
    ensures FirstAnswers(results, wanted, seen) == []
    decreases |results|
  {
    if results != [] { NothingLeftToAnswer(results[1..], wanted, seen); }
  }

  /** Once every wanted id is answered, later results do not matter. */
  lemma {:induction false} FirstAnswersComplete(a: seq<Message>, b: seq<Message>, wanted: set<string>,
    seen: set<string>)
    requires Distinct(ResultIds(a)) && Elems(ResultIds(a)) == wanted - seen
    ensures FirstAnswers(a + b, wanted, seen) == a
    decreases |a|
  {
    if a == [] {
      assert a + b == b;
      assert forall x :: x in wanted && x !in seen ==> x in Elems(ResultIds(a));
      NothingLeftToAnswer(b, wanted, seen);
    } else {
      var id, tail := a[0].toolCallId, a[1..];
      assert ResultIds(a) == [id] + ResultIds(tail);
      ElemsCons(id, ResultIds(tail));
      DistinctCons(id, ResultIds(tail));
      assert (a + b)[1..] == tail + b;
      assert Elems(ResultIds(tail)) == wanted - (seen + {id});
      FirstAnswersComplete(tail, b, wanted, seen + {id});
    }
  }

  /** A complete unit drops whatever results follow it. */
  lemma {:induction false} RepairUnitSheds(head: Message, results: seq<Message>, strays: seq<Message>)
    requires AnsweredBy(head.toolCalls, results)
    ensures RepairUnit(head, results + strays) == [head] + results
  {
    AnsweredByMembers(head.toolCalls, results);
    DedupeDistinct(head.toolCalls, {});
    assert Elems(ResultIds(results)) == Elems(Ids(head.toolCalls)) - {};
    FirstAnswersComplete(results, strays, Elems(Ids(head.toolCalls)), {});
    forall i | 0 <= i < |head.toolCalls| ensures head.toolCalls[i].id in ResultIds(results + strays) {
      assert Ids(head.toolCalls)[i] == head.toolCalls[i].id;
      assert ResultIds(results + strays) == ResultIds(results) + ResultIds(strays);
    }
  }

  /** A complete unit survives verbatim and in place, whatever surrounds it, stray and repeated results behind it
      included. */
  lemma {:induction false} CompleteUnitSurvives(a: seq<Message>, head: Message, results: seq<Message>, b: seq<Message>)
    requires !head.role.Tool? && head.toolCalls != [] && AnsweredBy(head.toolCalls, results)
    ensures Repaired(a + ([head] + results) + b) == Repaired(a) + ([head] + results) + Repaired(b)
  {
    var n := ToolRun(b);
    var strays, rest := b[..n], b[n..];
    ToolRunIsRun(b);
    assert a + ([head] + results) + b == a + ([head] + ((results + strays) + rest));
    UnitLostIffUnanswered(a, head, results + strays, rest);
    RepairUnitSheds(head, results, strays);
    RepairedSkipsRun(b);
  }

  /** In general a unit is judged by its contiguous results alone, and lost exactly when some call has no result among
      them. */
  lemma {:induction false} UnitLostIffUnanswered(a: seq<Message>, head: Message, results: seq<Message>, b: seq<Message>)
    requires !head.role.Tool? && head.toolCalls != [] && AllTool(results) && (b == [] || !b[0].role.Tool?)
    ensures Repaired(a + ([head] + (results + b))) == Repaired(a) + RepairUnit(head, results) + Repaired(b)
    ensures RepairUnit(head, results) == [] <==>
      exists i :: 0 <= i < |head.toolCalls| && head.toolCalls[i].id !in ResultIds(results)
  {
    RepairedConcat(a, [head] + (results + b));
    UnitInFront(head, results, b);
    ConcatAssoc(Repaired(a), RepairUnit(head, results), Repaired(b));
    DedupeAnswers(head.toolCalls, results);
  }

  lemma {:induction false} UnitInFront(head: Message, results: seq<Message>, b: seq<Message>)
    requires !head.role.Tool? && head.toolCalls != [] && AllTool(results) && (b == [] || !b[0].role.Tool?)
    ensures Repaired([head] + (results + b)) == RepairUnit(head, results) + Repaired(b)
  {
    var ms, n := [head] + (results + b), |results|;
    assert ms[1..] == results + b && ms[1..1 + n] == results && ms[1 + n..] == b;
    ToolRunAppend(results, b);
    NoRunInFront(b);
    RepairedHead(ms, results + b, results, b);
  }

  lemma {:induction false} NoRunInFront(b: seq<Message>)
    requires b == [] || !b[0].role.Tool?
    ensures ToolRun(b) == 0
  {}

  /** Repeated calls change nothing about whether all are answered. */
  lemma {:induction false} DedupeAnswers(calls: seq<ToolCall>, results: seq<Message>)
    ensures AllAnswered(Dedupe(calls, {}), results) <==> AllAnswered(calls, results)
  {
    var kept := Dedupe(calls, {});
    DedupeIds(calls, {});
    if AllAnswered(kept, results) {
      forall i | 0 <= i < |calls| ensures calls[i].id in ResultIds(results) {
        assert Ids(calls)[i] in Elems(Ids(kept));
        var j :| 0 <= j < |kept| && Ids(kept)[j] == calls[i].id;
        assert kept[j].id == calls[i].id;
      }
    }
    if AllAnswered(calls, results) {
      forall j | 0 <= j < |kept| ensures kept[j].id in ResultIds(results) {
        assert Ids(kept)[j] in Elems(Ids(kept)) && Ids(kept)[j] in Ids(calls);
        var i :| 0 <= i < |calls| && Ids(calls)[i] == kept[j].id;
        assert calls[i].id == kept[j].id;
      }
    }
  }

  lemma {:induction false} UnitRepairsToItself(head: Message, results: seq<Message>)
    requires !head.role.Tool? && head.toolCalls != [] && AnsweredBy(head.toolCalls, results)
    ensures Repaired([head] + results) == [head] + results
  {
    var unit := [head] + results;
    assert unit[1..] == results && results[..|results|] == results;
    ToolRunAppend(results, []);
    assert results + [] == results;
    assert unit[1..1 + |results|] == results && unit[1 + |results|..] == [];
    RepairUnitFixed(head, results);
  }

  /** A message that is neither a tool result nor carries calls survives in place, whatever surrounds it. */
  lemma {:induction false} PlainMessageSurvives(a: seq<Message>, m: Message, b: seq<Message>)
    requires !m.role.Tool? && m.toolCalls == []
    ensures Repaired(a + [m] + b) == Repaired(a) + [m] + Repaired(b)
  {
    assert a + [m] + b == a + ([m] + b);
    RepairedConcat(a, [m] + b);
    assert ([m] + b)[1..] == b;
  }

  lemma {:induction false} RepairedUnitStays(head: Message, results: seq<Message>, unit: seq<Message>,
                                             rest: seq<Message>)
    requires !head.role.Tool? && head.toolCalls != [] && AllTool(results) && unit == RepairUnit(head, results)
    requires Repaired(rest) == rest && (rest == [] || !rest[0].role.Tool?)
    ensures Repaired(unit + rest) == unit + rest
  {
    RepairUnitAnswered(head, results);
    if unit == [] {
      assert unit + rest == rest;
    } else {
      assert unit == [unit[0]] + unit[1..];
      UnitRepairsToItself(unit[0], unit[1..]);
      RepairedConcat(unit, rest);
    }
  }

  /** Repairing a repaired transcript changes nothing, whatever the input was. */
  lemma {:induction false} RepairIdempotent(ms: seq<Message>)
    ensures Repaired(Repaired(ms)) == Repaired(ms)
    decreases |ms|
  {
    if ms != [] {
      if ms[0].role.Tool? {
        RepairIdempotent(ms[1..]);
      } else if ms[0].toolCalls == [] {
        RepairIdempotent(ms[1..]);
        PlainMessageSurvives([], ms[0], Repaired(ms[1..]));
        assert [] + [ms[0]] + Repaired(ms[1..]) == Repaired(ms);
      } else {
        var n := ToolRun(ms[1..]);
        var unit, rest := RepairUnit(ms[0], ms[1..1 + n]), Repaired(ms[1 + n..]);
        RepairIdempotent(ms[1 + n..]);
        RepairedStartsLegally(ms[1 + n..]);
        ToolRunIsRun(ms[1..]);
        RepairedUnitStays(ms[0], ms[1..1 + n], unit, rest);
      }
    }
  }

  /** A paired transcript that starts with a unit is that unit and a paired rest. */
  lemma {:induction false} PeelUnit(ms: seq<Message>) returns (unit: seq<Message>, rest: seq<Message>)
    requires Paired(ms) && CallsOnAssistants(ms) && ms != [] && IsHead(ms[0])
    ensures ms == unit + rest && unit != [] && unit == [ms[0]] + unit[1..] && AnsweredBy(ms[0].toolCalls, unit[1..])
    ensures Paired(rest) && CallsOnAssistants(rest) && (rest == [] || !rest[0].role.Tool?)
  {
    var k := |ms[0].toolCalls|;
    UnitStandsAlone(ms, 0);
    PairedSuffix(ms, 1 + k);
    unit, rest := ms[..1 + k], ms[1 + k..];
    assert unit[1..] == ms[1..1 + k];
  }

  /** Repair does not touch a paired transcript. */
  lemma {:induction false} RepairKeepsPaired(ms: seq<Message>)
    requires Paired(ms) && CallsOnAssistants(ms)
    ensures Repaired(ms) == ms
    decreases |ms|
  {
    if ms != [] {
      NoToolAtBoundary(ms, 0);
      if ms[0].toolCalls == [] {
        PairedSuffix(ms, 1);
        RepairKeepsPaired(ms[1..]);
        assert [ms[0]] + ms[1..] == ms;
      } else {
        var unit, rest := PeelUnit(ms);
        RepairKeepsPaired(rest);
        UnitRepairsToItself(ms[0], unit[1..]);
        RepairedConcat(unit, rest);
      }
    }
  }

  /** Whatever the damage, the repaired transcript is paired. */
  lemma {:induction false} RepairIsLegal(ms: seq<Message>)
    requires CallsOnAssistants(ms)
    ensures Paired(Repaired(ms)) && CallsOnAssistants(Repaired(ms))
    decreases |ms|
  {
    if ms != [] {
      if ms[0].role.Tool? {
        RepairIsLegal(ms[1..]);
      } else if ms[0].toolCalls == [] {
        RepairIsLegal(ms[1..]);
        PairedSingle(ms[0]);
        LegalConcat([ms[0]], Repaired(ms[1..]));
      } else {
        var n := ToolRun(ms[1..]);
        RepairIsLegal(ms[1 + n..]);
        ToolRunIsRun(ms[1..]);
        UnitIsLegal(ms[0], ms[1..1 + n]);
        LegalConcat(RepairUnit(ms[0], ms[1..1 + n]), Repaired(ms[1 + n..]));
      }
    }
  }

  lemma {:induction false} LegalConcat(a: seq<Message>, b: seq<Message>)
    requires Paired(a) && Paired(b) && CallsOnAssistants(a) && CallsOnAssistants(b)
    ensures Paired(a + b) && CallsOnAssistants(a + b)
  {
    PairedConcat(a, b);
  }

  lemma {:induction false} UnitIsLegal(head: Message, results: seq<Message>)
    requires IsHead(head) && AllTool(results) && CallsOnAssistants(results)
    ensures Paired(RepairUnit(head, results)) && CallsOnAssistants(RepairUnit(head, results))
  {
    var unit := RepairUnit(head, results);
    if unit != [] {
      assert Paired(unit) by {
        RepairUnitAnswered(head, results);
        PairedUnit(unit[0], unit[1..]);
        assert unit == [unit[0]] + unit[1..];
      }
      var kept := FirstAnswers(results, Elems(Ids(head.toolCalls)), {});
      FirstAnswersFrom(results, Elems(Ids(head.toolCalls)), {});
      assert forall m :: m in kept && m.toolCalls != [] ==> m.role.Assistant?;
      assert unit[0].role == head.role && forall i :: 0 < i < |unit| ==> unit[i] == kept[i - 1];
    }
  }

  lemma {:induction false} FirstAnswersFrom(results: seq<Message>, wanted: set<string>, seen: set<string>)
    ensures forall m :: m in FirstAnswers(results, wanted, seen) ==> m in results
    decreases |results|
  {
    if results != [] {
      var id := results[0].toolCallId;
      FirstAnswersFrom(results[1..], wanted, if id in wanted && id !in seen then seen + {id} else seen);
    }
  }

  /** With set roles and named calls, the OpenAI driver accepts what repair leaves. */
  lemma {:induction false} RepairPassesOpenAI(ms: seq<Message>)
    requires CallsOnAssistants(ms) && RolesSet(ms) && CallsNamed(ms)
    ensures AcceptedByOpenAI(Repaired(ms))
  {
    RepairIsLegal(ms);
    RepairedFrom(ms);
    var out := Repaired(ms);
    forall i | 0 <= i < |out| ensures !out[i].role.Unknown? && (IsHead(out[i]) ==> Named(out[i].toolCalls)) {
      assert out[i] in out;
      var j :| 0 <= j < |ms| && (out[i] == ms[j] || out[i] == ms[j].(toolCalls := Dedupe(ms[j].toolCalls, {})));
      if IsHead(out[i]) {
        DedupeIds(ms[j].toolCalls, {});
        assert ms[j].toolCalls != [] && Named(ms[j].toolCalls);
        NamedSubset(ms[j].toolCalls, out[i].toolCalls);
      }
    }
  }

  lemma {:induction false} NamedSubset(calls: seq<ToolCall>, kept: seq<ToolCall>)
    requires Named(calls) && forall c :: c in kept ==> c in calls
    ensures Named(kept)
  {
    forall i | 0 <= i < |kept| ensures !Blank(kept[i].id) && !Blank(kept[i].name) {
      assert kept[i] in calls;
    }
  }

  /** Everything repair leaves was there before, up to removal of repeated calls. */
  lemma {:induction false} RepairedFrom(ms: seq<Message>)
    ensures forall m :: m in Repaired(ms) ==>
      exists j :: 0 <= j < |ms| && (m == ms[j] || m == ms[j].(toolCalls := Dedupe(ms[j].toolCalls, {})))
    decreases |ms|
  {
    if ms != [] {
      var n := if ms[0].role.Tool? || ms[0].toolCalls == [] then 0 else ToolRun(ms[1..]);
      var rest := ms[1 + n..];
      RepairedFrom(rest);
      FirstAnswersFrom(ms[1..1 + n], Elems(Ids(ms[0].toolCalls)), {});
      forall m | m in Repaired(ms)
        ensures exists j :: 0 <= j < |ms| && (m == ms[j] || m == ms[j].(toolCalls := Dedupe(ms[j].toolCalls, {})))
      {
        if m in Repaired(rest) {
          var j :| 0 <= j < |rest| && (m == rest[j] || m == rest[j].(toolCalls := Dedupe(rest[j].toolCalls, {})));
          assert rest[j] == ms[j + 1 + n];
        } else if m in ms[1..1 + n] {
          var j :| 0 <= j < n && ms[1..1 + n][j] == m;
          assert ms[j + 1] == m;
        } else {
          assert m == ms[0] || m == ms[0].(toolCalls := Dedupe(ms[0].toolCalls, {}));
        }
      }
    }
  }
}
