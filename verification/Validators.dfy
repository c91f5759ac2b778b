/** The two drivers' transcript validators. OpenAI's looks ahead over whole units;
    Anthropic's is a streaming machine over pending and answered ids. Each is proved
    to decide a relation stated without reference to either algorithm. */
module Validators {
  import opened Transcript

  /** unicode.IsSpace, which strings.TrimSpace strips. */
  predicate IsSpace(c: char) {
    var u := c as int;
    || 0x09 <= u <= 0x0d || u == 0x20 || u == 0x85 || u == 0xa0 || u == 0x1680
    || 0x2000 <= u <= 0x200a || u == 0x2028 || u == 0x2029 || u == 0x202f || u == 0x205f || u == 0x3000
  }

  /** strings.TrimSpace(s) == "" */
  predicate Blank(s: string) {
    forall i :: 0 <= i < |s| ==> IsSpace(s[i])
  }

  ghost predicate Named(calls: seq<ToolCall>) {
    forall i :: 0 <= i < |calls| ==> !Blank(calls[i].id) && !Blank(calls[i].name)
  }

  ghost predicate Complete(calls: seq<ToolCall>) {
    forall i :: 0 <= i < |calls| ==> calls[i].id != "" && calls[i].name != ""
  }

  ghost predicate RolesSet(ms: seq<Message>) {
    forall i :: 0 <= i < |ms| ==> !ms[i].role.Unknown?
  }

  predicate KnownRole(r: Role) {
    r.System? || r.User? || r.Assistant? || r.Tool?
  }

  ghost predicate RolesKnown(ms: seq<Message>) {
    forall i :: 0 <= i < |ms| ==> KnownRole(ms[i].role)
  }

  ghost predicate CallsNamed(ms: seq<Message>) {
    forall i :: 0 <= i < |ms| && IsHead(ms[i]) ==> Named(ms[i].toolCalls)
  }

  ghost predicate CallsComplete(ms: seq<Message>) {
    forall i :: 0 <= i < |ms| && IsHead(ms[i]) ==> Complete(ms[i].toolCalls)
  }

  /** No tool-call id is declared by two different assistant turns. */
  ghost predicate NoIdReuse(ms: seq<Message>) {
    forall i, j, x :: 0 <= i < j < |ms| && IsHead(ms[i]) && IsHead(ms[j]) && x in Ids(ms[j].toolCalls)
      ==> x !in Ids(ms[i].toolCalls)
  }

  ghost predicate AcceptedByOpenAI(ms: seq<Message>) {
    Paired(ms) && RolesSet(ms) && CallsNamed(ms)
  }

  ghost predicate AcceptedByAnthropic(ms: seq<Message>) {
    Paired(ms) && RolesKnown(ms) && CallsComplete(ms) && NoIdReuse(ms)
  }

  // ----- OpenAI: lookahead over units -----

  method CheckIdentities(calls: seq<ToolCall>) returns (ok: bool, seen: set<string>)
    ensures ok <==> Named(calls) && Distinct(Ids(calls))
    ensures ok ==> seen == Elems(Ids(calls))
  {
    seen := {};
    for n := 0 to |calls|
      invariant Named(calls[..n]) && Distinct(Ids(calls)[..n])
      invariant seen == Elems(Ids(calls)[..n])
    {
      if Blank(calls[n].id) || Blank(calls[n].name) {
        return false, seen;
      }
      if calls[n].id in seen {
        assert Ids(calls)[n] in Ids(calls)[..n];
        return false, seen;
      }
      seen := seen + {calls[n].id};
      assert Ids(calls)[..n + 1] == Ids(calls)[..n] + [calls[n].id];
    }
    assert calls[..|calls|] == calls;
    assert Ids(calls)[..|calls|] == Ids(calls);
    ok := true;
  }

  method CheckResults(calls: seq<ToolCall>, results: seq<Message>, seen: set<string>) returns (ok: bool)
    requires |results| == |calls| && Distinct(Ids(calls)) && seen == Elems(Ids(calls))
    ensures ok <==> AnsweredBy(calls, results)
  {
    var answered := {};
    var ids := ResultIds(results);
    ok := true;
    for n := 0 to |results|
      invariant ok
      invariant AllTool(results[..n]) && Distinct(ids[..n]) && answered == Elems(ids[..n])
      invariant forall x :: x in ids[..n] ==> x in Ids(calls)
    {
      assert ids[n] == results[n].toolCallId;
      if !results[n].role.Tool? || results[n].toolCallId !in seen || results[n].toolCallId in answered {
        NotAnswered(calls, results, n);
        return false;
      }
      answered := answered + {results[n].toolCallId};
      assert ids[..n + 1] == ids[..n] + [ids[n]];
    }
    assert results[..|results|] == results && ids[..|results|] == ids;
    MembersAnsweredBy(calls, results);
  }

  lemma {:induction false} NotAnswered(calls: seq<ToolCall>, results: seq<Message>, n: nat)
    requires n < |results|
    requires
      || !results[n].role.Tool?
      || results[n].toolCallId !in Ids(calls)
      || results[n].toolCallId in ResultIds(results)[..n]
    ensures !AnsweredBy(calls, results)
  {
    assert ResultIds(results)[n] == results[n].toolCallId;
    if AnsweredBy(calls, results) {
      AnsweredByMembers(calls, results);
    }
  }

  method ValidateToolCallUnit(ms: seq<Message>, i: nat) returns (ok: bool)
    requires i < |ms|
    ensures ok <==> UnitAt(ms, i) && Named(ms[i].toolCalls)
  {
    var calls := ms[i].toolCalls;
    if i + |calls| >= |ms| {
      return false;
    }
    var seen;
    ok, seen := CheckIdentities(calls);
    if ok {
      ok := CheckResults(calls, ms[i + 1..i + 1 + |calls|], seen);
    }
  }

  method ValidateOpenAI(ms: seq<Message>) returns (ok: bool)
    ensures ok <==> AcceptedByOpenAI(ms)
  {
    var index := 0;
    while index < |ms|
      invariant index <= |ms| && Boundary(ms, index)
      invariant AcceptedByOpenAI(ms[..index])
    {
      var message := ms[index];
      if message.role.Unknown? {
        return false;
      }
      if message.role.Tool? {
        RejectOrphan(ms, index);
        return false;
      }
      if !IsHead(message) {
        ExtendBySingle(ms, index);
        index := index + 1;
        continue;
      }
      var unitOk := ValidateToolCallUnit(ms, index);
      if !unitOk {
        return false;
      }
      ExtendByUnit(ms, index);
      index := index + |message.toolCalls| + 1;
    }
    assert ms[..|ms|] == ms;
    ok := true;
  }

  lemma {:induction false} RejectOrphan(ms: seq<Message>, p: nat)
    requires p < |ms| && Boundary(ms, p) && ms[p].role.Tool?
    ensures !Paired(ms)
  {
    if Paired(ms) { NoToolAtBoundary(ms, p); }
  }

  lemma {:induction false} OpenAIConcat(a: seq<Message>, b: seq<Message>)
    requires AcceptedByOpenAI(a) && AcceptedByOpenAI(b)
    ensures AcceptedByOpenAI(a + b)
  {
    PairedConcat(a, b);
  }

  lemma {:induction false} ExtendBySingle(ms: seq<Message>, p: nat)
    requires p < |ms| && Boundary(ms, p) && AcceptedByOpenAI(ms[..p])
    requires !ms[p].role.Tool? && !ms[p].role.Unknown? && !IsHead(ms[p])
    ensures Boundary(ms, p + 1) && AcceptedByOpenAI(ms[..p + 1])
  {
    PairedSingle(ms[p]);
    OpenAIConcat(ms[..p], [ms[p]]);
    assert ms[..p + 1] == ms[..p] + [ms[p]];
  }

  lemma {:induction false} OpenAIUnit(h: Message, results: seq<Message>)
    requires IsHead(h) && AnsweredBy(h.toolCalls, results) && Named(h.toolCalls)
    ensures AcceptedByOpenAI([h] + results)
  {
    PairedUnit(h, results);
    var unit := [h] + results;
    assert unit[0] == h && forall i :: 0 < i < |unit| ==> unit[i] == results[i - 1];
  }

  lemma {:induction false} AcceptedPrefix(ms: seq<Message>, p: nat, q: nat)
    requires p < q <= |ms| && AcceptedByOpenAI(ms[..p]) && AcceptedByOpenAI([ms[p]] + ms[p + 1..q])
    ensures AcceptedByOpenAI(ms[..q])
  {
    OpenAIConcat(ms[..p], [ms[p]] + ms[p + 1..q]);
    assert ms[..q] == ms[..p] + ([ms[p]] + ms[p + 1..q]);
  }

  lemma {:induction false} ExtendByUnit(ms: seq<Message>, p: nat)
    requires p < |ms| && Boundary(ms, p) && AcceptedByOpenAI(ms[..p])
    requires IsHead(ms[p]) && UnitAt(ms, p) && Named(ms[p].toolCalls)
    ensures Boundary(ms, p + 1 + |ms[p].toolCalls|) && AcceptedByOpenAI(ms[..p + 1 + |ms[p].toolCalls|])
  {
    var q := p + 1 + |ms[p].toolCalls|;
    UnitEndsAtBoundary(ms, p);
    OpenAIUnit(ms[p], ms[p + 1..q]);
    AcceptedPrefix(ms, p, q);
  }

  // ----- Anthropic: a machine over pending and answered ids -----

  /** Every id declared by an assistant turn of `ms`. */
  ghost function DeclaredIds(ms: seq<Message>): set<string> {
    set i, x | 0 <= i < |ms| && IsHead(ms[i]) && x in Ids(ms[i].toolCalls) :: x
  }

  /** The unit opened at `h` has been answered up to (not including) position `p`. */
  ghost predicate PartlyAnswered(ms: seq<Message>, h: nat, p: nat) {
    && h < p <= |ms| && p - h - 1 <= |ms[h].toolCalls|
    && IsHead(ms[h]) && KnownRole(ms[h].role) && Complete(ms[h].toolCalls) && Distinct(Ids(ms[h].toolCalls))
    && AllTool(ms[h + 1..p])
    && Distinct(ResultIds(ms[h + 1..p]))
    && Elems(ResultIds(ms[h + 1..p])) <= Elems(Ids(ms[h].toolCalls))
  }

  /** What the machine's two maps mean after reading `p` messages, the last unit having opened at `h`. */
  ghost predicate MachineState(ms: seq<Message>, p: nat, h: nat, pending: set<string>, answered: set<string>) {
    && h <= p <= |ms| && Boundary(ms, h) && AcceptedByAnthropic(ms[..h])
    && if pending == {} then h == p && answered == DeclaredIds(ms[..h])
       else
         && PartlyAnswered(ms, h, p)
         && pending == Elems(Ids(ms[h].toolCalls)) - Elems(ResultIds(ms[h + 1..p]))
         && answered == DeclaredIds(ms[..h]) + Elems(ResultIds(ms[h + 1..p]))
         && DeclaredIds(ms[..h]) !! Elems(ResultIds(ms[h + 1..p]))
  }

  method ValidateAssistantMessage(calls: seq<ToolCall>, pending: set<string>) returns (ok: bool, pending': set<string>)
    ensures ok <==> Complete(calls) && Distinct(Ids(calls)) && Elems(Ids(calls)) !! pending
    ensures ok ==> pending' == pending + Elems(Ids(calls))
  {
    pending' := pending;
    var ids := Ids(calls);
    for n := 0 to |calls|
      invariant Complete(calls[..n]) && Distinct(ids[..n]) && Elems(ids[..n]) !! pending
      invariant pending' == pending + Elems(ids[..n])
    {
      if calls[n].id == "" || calls[n].name == "" {
        return false, pending';
      }
      if calls[n].id in pending' {
        assert ids[n] in ids[..n] || (ids[n] in Elems(ids) && ids[n] in pending);
        return false, pending';
      }
      pending' := pending' + {calls[n].id};
      assert ids[..n + 1] == ids[..n] + [ids[n]];
    }
    assert calls[..|calls|] == calls && ids[..|calls|] == ids;
    ok := true;
  }

  method ValidateAnthropic(ms: seq<Message>) returns (ok: bool)
    ensures ok <==> AcceptedByAnthropic(ms)
  {
    var pending: set<string>, answered: set<string> := {}, {};
    ghost var h: nat := 0;
    for index := 0 to |ms|
      invariant MachineState(ms, index, h, pending, answered)
    {
      var message := ms[index];
      if !KnownRole(message.role) {
        return false;
      }
      if pending != {} && !message.role.Tool? {
        UnfinishedUnit(ms, index, h, pending, answered);
        return false;
      }
      if message.role.Assistant? {
        var legal;
        legal, pending := ValidateAssistantMessage(message.toolCalls, pending);
        if !legal {
          RejectTurn(ms, index);
          return false;
        }
        StepTurn(ms, index, answered);
        if message.toolCalls == [] {
          h := index + 1;
        }
      } else if message.role.Tool? {
        if message.toolCallId !in pending || message.toolCallId in answered {
          RejectResult(ms, index, h, pending, answered);
          return false;
        }
        h := StepResult(ms, index, h, pending, answered);
        pending := pending - {message.toolCallId};
        answered := answered + {message.toolCallId};
      } else {
        StepTurn(ms, index, answered);
        h := index + 1;
      }
    }
    if pending != {} {
      UnfinishedUnit(ms, |ms|, h, pending, answered);
      return false;
    }
    assert ms[..|ms|] == ms;
    ok := true;
  }

  lemma {:induction false} RejectTurn(ms: seq<Message>, p: nat)
    requires p < |ms| && ms[p].role.Assistant? && !(Complete(ms[p].toolCalls) && Distinct(Ids(ms[p].toolCalls)))
    ensures !AcceptedByAnthropic(ms)
  {
    assert IsHead(ms[p]);
  }

  /** While calls are pending, the unit has room left, and only a tool message can fill it. */
  lemma {:induction false} PendingMeansRoom(ms: seq<Message>, p: nat, h: nat)
    requires PartlyAnswered(ms, h, p)
    ensures Elems(Ids(ms[h].toolCalls)) - Elems(ResultIds(ms[h + 1..p])) == {} <==> p - h - 1 == |ms[h].toolCalls|
  {
    var all, done := Elems(Ids(ms[h].toolCalls)), Elems(ResultIds(ms[h + 1..p]));
    DistinctElems(Ids(ms[h].toolCalls));
    DistinctElems(ResultIds(ms[h + 1..p]));
    assert |all - done| == |all| - |done|;
  }

  lemma {:induction false} UnfinishedUnit(ms: seq<Message>, p: nat, h: nat, pending: set<string>, answered: set<string>)
    requires MachineState(ms, p, h, pending, answered) && pending != {}
    requires p < |ms| ==> !ms[p].role.Tool?
    ensures !AcceptedByAnthropic(ms)
  {
    PendingMeansRoom(ms, p, h);
    if UnitAt(ms, h) { UnitMember(ms, h, p); }
  }

  lemma {:induction false} DeclaredExtends(ms: seq<Message>, p: nat, q: nat)
    requires p < q <= |ms| && AllTool(ms[p + 1..q])
    ensures DeclaredIds(ms[..q]) == DeclaredIds(ms[..p]) + (if IsHead(ms[p]) then Elems(Ids(ms[p].toolCalls)) else {})
  {
    assert forall i :: p < i < q ==> ms[i] == ms[p + 1..q][i - p - 1];
    forall x ensures x in DeclaredIds(ms[..q]) <==>
      x in DeclaredIds(ms[..p]) || (IsHead(ms[p]) && x in Elems(Ids(ms[p].toolCalls))) {
      if IsHead(ms[p]) && x in Elems(Ids(ms[p].toolCalls)) {
        assert ms[..q][p] == ms[p];
      }
      if x in DeclaredIds(ms[..p]) {
        var i :| 0 <= i < |ms[..p]| && IsHead(ms[..p][i]) && x in Ids(ms[..p][i].toolCalls);
        assert ms[..q][i] == ms[..p][i];
      }
      if x in DeclaredIds(ms[..q]) {
        var i :| 0 <= i < |ms[..q]| && IsHead(ms[..q][i]) && x in Ids(ms[..q][i].toolCalls);
        assert i < p ==> ms[..p][i] == ms[..q][i];
      }
    }
  }

  lemma {:induction false} AnthropicConcat(a: seq<Message>, b: seq<Message>)
    requires AcceptedByAnthropic(a) && AcceptedByAnthropic(b) && DeclaredIds(a) !! DeclaredIds(b)
    ensures AcceptedByAnthropic(a + b)
  {
    PairedConcat(a, b);
    var ms := a + b;
    forall i, j, x | 0 <= i < j < |ms| && IsHead(ms[i]) && IsHead(ms[j]) && x in Ids(ms[j].toolCalls)
      ensures x !in Ids(ms[i].toolCalls)
    {
      if i < |a| <= j {
        assert x in DeclaredIds(b) by { assert b[j - |a|] == ms[j]; }
        assert x in Ids(ms[i].toolCalls) ==> x in DeclaredIds(a) by { assert a[i] == ms[i]; }
      }
    }
  }

  lemma {:induction false} StepTurn(ms: seq<Message>, p: nat, answered: set<string>)
    requires p < |ms| && MachineState(ms, p, p, {}, answered)
    requires KnownRole(ms[p].role) && !ms[p].role.Tool?
    requires ms[p].role.Assistant? ==> Complete(ms[p].toolCalls) && Distinct(Ids(ms[p].toolCalls))
    ensures if IsHead(ms[p]) then MachineState(ms, p + 1, p, Elems(Ids(ms[p].toolCalls)), answered)
            else MachineState(ms, p + 1, p + 1, {}, answered)
  {
    if IsHead(ms[p]) {
      assert Ids(ms[p].toolCalls)[0] in Elems(Ids(ms[p].toolCalls));
    } else {
      PairedSingle(ms[p]);
      AnthropicConcat(ms[..p], [ms[p]]);
      assert ms[..p + 1] == ms[..p] + [ms[p]];
      DeclaredExtends(ms, p, p + 1);
    }
  }

  /** The answered part of a unit grows by one fresh result. */
  lemma {:induction false} GrowAnswered(ms: seq<Message>, h: nat, p: nat)
    requires PartlyAnswered(ms, h, p) && p < |ms| && p - h - 1 < |ms[h].toolCalls|
    requires ms[p].role.Tool? && ms[p].toolCallId in Ids(ms[h].toolCalls)
    requires ms[p].toolCallId !in ResultIds(ms[h + 1..p])
    ensures PartlyAnswered(ms, h, p + 1)
    ensures Elems(ResultIds(ms[h + 1..p + 1])) == Elems(ResultIds(ms[h + 1..p])) + {ms[p].toolCallId}
  {
    var s, t := ms[h + 1..p], ms[h + 1..p + 1];
    assert t == s + [ms[p]];
    assert ResultIds(t) == ResultIds(s) + [ms[p].toolCallId];
  }

  /** A fully answered unit whose ids are new closes, and everything up to its end is accepted. */
  lemma {:induction false} CloseUnit(ms: seq<Message>, h: nat)
    requires h < |ms| && Boundary(ms, h) && AcceptedByAnthropic(ms[..h])
    requires PartlyAnswered(ms, h, h + 1 + |ms[h].toolCalls|)
    requires DeclaredIds(ms[..h]) !! Elems(Ids(ms[h].toolCalls))
    ensures Boundary(ms, h + 1 + |ms[h].toolCalls|) && AcceptedByAnthropic(ms[..h + 1 + |ms[h].toolCalls|])
    ensures DeclaredIds(ms[..h + 1 + |ms[h].toolCalls|]) == DeclaredIds(ms[..h]) + Elems(Ids(ms[h].toolCalls))
  {
    var q := h + 1 + |ms[h].toolCalls|;
    var results := ms[h + 1..q];
    forall x | x in ResultIds(results) ensures x in Ids(ms[h].toolCalls) {
      assert x in Elems(ResultIds(results));
    }
    MembersAnsweredBy(ms[h].toolCalls, results);
    PairedUnit(ms[h], results);
    var unit := [ms[h]] + results;
    assert forall i :: 0 < i < |unit| ==> unit[i] == results[i - 1];
    assert unit[0] == ms[h];
    assert DeclaredIds(unit) <= Elems(Ids(ms[h].toolCalls));
    assert NoIdReuse(unit) && RolesKnown(unit) && CallsComplete(unit);
    AnthropicConcat(ms[..h], unit);
    assert ms[..q] == ms[..h] + unit;
    UnitEndsAtBoundary(ms, h);
    DeclaredExtends(ms, h, q);
  }

  lemma {:induction false} StepResult(ms: seq<Message>, p: nat, h: nat, pending: set<string>, answered: set<string>)
    returns (h': nat)
    requires p < |ms| && MachineState(ms, p, h, pending, answered)
    requires ms[p].role.Tool? && ms[p].toolCallId in pending && ms[p].toolCallId !in answered
    ensures MachineState(ms, p + 1, h', pending - {ms[p].toolCallId}, answered + {ms[p].toolCallId})
  {
    PendingMeansRoom(ms, p, h);
    GrowAnswered(ms, h, p);
    PendingMeansRoom(ms, p + 1, h);
    var all, done := Elems(Ids(ms[h].toolCalls)), Elems(ResultIds(ms[h + 1..p + 1]));
    assert pending - {ms[p].toolCallId} == all - done;
    assert answered + {ms[p].toolCallId} == DeclaredIds(ms[..h]) + done;
    if all - done == {} {
      assert done == all;
      CloseUnit(ms, h);
      h' := p + 1;
    } else {
      h' := h;
    }
  }

  lemma {:induction false} RejectResult(ms: seq<Message>, p: nat, h: nat, pending: set<string>, answered: set<string>)
    requires p < |ms| && MachineState(ms, p, h, pending, answered) && ms[p].role.Tool?
    requires ms[p].toolCallId !in pending || ms[p].toolCallId in answered
    ensures !AcceptedByAnthropic(ms)
  {
    if pending == {} {
      RejectOrphan(ms, p);
    } else if UnitAt(ms, h) {
      PendingMeansRoom(ms, p, h);
      var k, id := |ms[h].toolCalls|, ms[p].toolCallId;
      var results := ms[h + 1..h + 1 + k];
      AnsweredByMembers(ms[h].toolCalls, results);
      assert ResultIds(results)[p - h - 1] == id;
      assert ms[h + 1..p] == results[..p - h - 1];
      assert ResultIds(ms[h + 1..p]) == ResultIds(results)[..p - h - 1];
      assert id !in ResultIds(results)[..p - h - 1];
      assert id in ResultIds(results) && id in Elems(Ids(ms[h].toolCalls));
      assert id in pending && id in DeclaredIds(ms[..h]);
      var i :| 0 <= i < |ms[..h]| && IsHead(ms[..h][i]) && id in Ids(ms[..h][i].toolCalls);
      assert ms[..h][i] == ms[i];
    }
  }

  // ----- agreement -----

  /** Among transcripts with named calls and the four known roles, Anthropic accepts
      exactly those OpenAI accepts in which no id is reused across assistant turns. */
  lemma {:induction false} ValidatorsAgree(ms: seq<Message>)
    ensures AcceptedByAnthropic(ms) && CallsNamed(ms) <==> AcceptedByOpenAI(ms) && RolesKnown(ms) && NoIdReuse(ms)
  {
    forall i | 0 <= i < |ms| && IsHead(ms[i]) && Named(ms[i].toolCalls) ensures Complete(ms[i].toolCalls) {
      NamedIsComplete(ms[i].toolCalls);
    }
  }

  lemma {:induction false} NamedIsComplete(calls: seq<ToolCall>)
    requires Named(calls)
    ensures Complete(calls)
  {
    assert Blank("");
  }
}
