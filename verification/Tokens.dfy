/** The built-in token counter, over an uninterpreted tokenizer. */
module Tokens {
  import opened Transcript
  import opened Validators
  import opened Compaction
  import opened CompactionTheorems

  const PER_MESSAGE_TOKEN_OVERHEAD := 4
  const PER_TOOL_TOKEN_OVERHEAD := 8

  /** The tokenizer: number of tokens of a text, or an error. */
  type Tokenizer = string -> Option<nat>

  function RoleName(r: Role): string {
    match r
    case Unknown => ""
    case System => "system"
    case User => "user"
    case Assistant => "assistant"
    case Tool => "tool"
    case Other(name) => name
  }

  lemma {:induction false} RolesAreNames(r: Role, s: Role)
    ensures RoleName(r) == RoleName(s) <==> r == s
  {
    var names := ["", "system", "user", "assistant", "tool"];
    assert |names[0]| == 0 && |names[1]| == 6 && |names[2]| == 4 && |names[3]| == 9 && |names[4]| == 4;
    assert names[2][0] == 'u' && names[4][0] == 't';
  }

  function TrimLeft(s: string): string {
    if s != "" && IsSpace(s[0]) then TrimLeft(s[1..]) else s
  }

  function TrimRight(s: string): string {
    if s != "" && IsSpace(s[|s| - 1]) then TrimRight(s[..|s| - 1]) else s
  }

  /** Empty, blank and JSON null envelopes count as absent. */
  predicate HasProviderReasoning(raw: string) {
    var trimmed := TrimRight(TrimLeft(raw));
    trimmed != "" && trimmed != "null"
  }

  lemma {:induction false} TrimLeftBlank(a: string, s: string)
    requires Blank(a) && (s == "" || !IsSpace(s[0]))
    ensures TrimLeft(a + s) == s
    decreases |a|
  {
    if a == "" {
      assert a + s == s;
    } else {
      assert (a + s)[1..] == a[1..] + s;
      TrimLeftBlank(a[1..], s);
    }
  }

  lemma {:induction false} TrimRightBlank(s: string, b: string)
    requires Blank(b) && (s == "" || !IsSpace(s[|s| - 1]))
    ensures TrimRight(s + b) == s
    decreases |b|
  {
    if b == "" {
      assert s + b == s;
    } else {
      assert (s + b)[..|s + b| - 1] == s + b[..|b| - 1];
      TrimRightBlank(s, b[..|b| - 1]);
    }
  }

  /** Where the blanks in front and behind end. */
  lemma {:induction false} BlankFront(s: string) returns (a: string, t: string)
    ensures s == a + t && Blank(a) && (t == "" || !IsSpace(t[0]))
    decreases |s|
  {
    a, t := "", s;
    if s != "" && IsSpace(s[0]) {
      a, t := BlankFront(s[1..]);
      a := [s[0]] + a;
    }
  }

  lemma {:induction false} BlankBack(s: string) returns (t: string, b: string)
    ensures s == t + b && Blank(b) && (t == "" || !IsSpace(t[|t| - 1]))
    decreases |s|
  {
    t, b := s, "";
    if s != "" && IsSpace(s[|s| - 1]) {
      t, b := BlankBack(s[..|s| - 1]);
      b := b + [s[|s| - 1]];
    }
  }

  ghost predicate PaddedNull(raw: string, a: string, b: string) {
    Blank(a) && Blank(b) && raw == a + ("null" + b)
  }

  /** Blank is what trimming leaves nothing of. */
  lemma {:induction false} BlankIsTrimmed(s: string)
    ensures Blank(s) <==> TrimRight(TrimLeft(s)) == ""
  {
    var a, t := BlankFront(s);
    var u, b := BlankBack(t);
    TrimLeftBlank(a, t);
    TrimRightBlank(u, b);
    assert Blank(s) ==> t == "" by { assert t != "" ==> s[|a|] == t[0]; }
    if u == "" { assert s == a + b; }
  }

  /** An envelope counts as present unless it is blank, or the JSON null between blanks. */
  lemma {:induction false} ProviderReasoningMeans(raw: string)
    ensures HasProviderReasoning(raw) <==> !Blank(raw) && !exists a, b :: PaddedNull(raw, a, b)
  {
    var a, t := BlankFront(raw);
    var u, b := BlankBack(t);
    TrimLeftBlank(a, t);
    TrimRightBlank(u, b);
    assert Blank(raw) ==> t == "" by { assert t != "" ==> raw[|a|] == t[0]; }
    if u == "" { assert raw == a + b; }
    if u == "null" { assert PaddedNull(raw, a, b); }
    if c, d :| PaddedNull(raw, c, d) {
      TrimLeftBlank(c, "null" + d);
      TrimRightBlank("null", d);
    }
  }

  function CallParts(calls: seq<ToolCall>): seq<string> {
    if calls == [] then [] else [calls[0].name, calls[0].arguments] + CallParts(calls[1..])
  }

  function MessageParts(m: Message): seq<string> {
    [RoleName(m.role), m.text, m.toolCallId, m.reasoning]
    + (if HasProviderReasoning(m.providerReasoning) then [m.providerReasoning] else [])
    + CallParts(m.toolCalls)
  }

  function ToolParts(t: Compaction.Tool): seq<string> {
    [t.name, t.description, t.schema]
  }

  function Plus(a: Option<int>, b: Option<int>): Option<int> {
    if a.Some? && b.Some? then Some(a.value + b.value) else None
  }

  function CountParts(parts: seq<string>, countText: Tokenizer): Option<int> {
    if parts == [] then Some(0)
    else Plus(match countText(parts[0]) case None => None case Some(n) => Some(n as int),
      CountParts(parts[1..], countText))
  }

  /** Sum over groups of parts, each group with a fixed overhead. */
  function CountGroups(groups: seq<seq<string>>, overhead: int, countText: Tokenizer): Option<int> {
    if groups == [] then Some(0)
    else Plus(Plus(CountParts(groups[0], countText), Some(overhead)), CountGroups(groups[1..], overhead, countText))
  }

  function MessageGroups(ms: seq<Message>): seq<seq<string>> {
    seq(|ms|, i requires 0 <= i < |ms| => MessageParts(ms[i]))
  }

  function ToolGroups(tools: seq<Compaction.Tool>): seq<seq<string>> {
    seq(|tools|, i requires 0 <= i < |tools| => ToolParts(tools[i]))
  }

  function BuiltIn(countText: Tokenizer): Counter {
    (ms: seq<Message>, tools: seq<Compaction.Tool>) =>
      Plus(CountGroups(MessageGroups(ms), PER_MESSAGE_TOKEN_OVERHEAD, countText),
           CountGroups(ToolGroups(tools), PER_TOOL_TOKEN_OVERHEAD, countText))
  }

  /** The nested counting loops; an error of the tokenizer ends the count. */
  method CountAll(groups: seq<seq<string>>, overhead: int, countText: Tokenizer, start: int)
    returns (total: Option<int>)
    ensures total == Plus(Some(start), CountGroups(groups, overhead, countText))
  {
    var sum := start;
    for n := 0 to |groups|
      invariant Plus(Some(sum), CountGroups(groups[n..], overhead, countText))
        == Plus(Some(start), CountGroups(groups, overhead, countText))
    {
      var parts := groups[n];
      assert groups[n..][1..] == groups[n + 1..];
      ghost var before := sum;
      for k := 0 to |parts|
        invariant Plus(Some(sum), CountParts(parts[k..], countText)) == Plus(Some(before), CountParts(parts, countText))
      {
        assert parts[k..][1..] == parts[k + 1..];
        match countText(parts[k]) {
          case None => return None;
          case Some(count) => sum := sum + count;
        }
      }
      sum := sum + overhead;
    }
    total := Some(sum);
  }

  method CountBuiltIn(ms: seq<Message>, tools: seq<Compaction.Tool>, countText: Tokenizer) returns (total: Option<int>)
    ensures total == Count(BuiltIn(countText), ms, tools)
  {
    total := CountAll(MessageGroups(ms), PER_MESSAGE_TOKEN_OVERHEAD, countText, 0);
    if total.Some? {
      total := CountAll(ToolGroups(tools), PER_TOOL_TOKEN_OVERHEAD, countText, total.value);
    }
  }

  // ----- additivity -----

  /** The cost of one group under a tokenizer that never fails. */
  function GroupCost(parts: seq<string>, overhead: int, countText: Tokenizer): int {
    match CountParts(parts, countText) case None => 1 case Some(n) => n + overhead
  }

  ghost predicate NeverFails(countText: Tokenizer) {
    forall s :: countText(s).Some?
  }

  lemma {:induction false} PartsCount(parts: seq<string>, countText: Tokenizer)
    requires NeverFails(countText)
    ensures CountParts(parts, countText).Some? && CountParts(parts, countText).value >= 0
    decreases |parts|
  {
    if parts != [] { PartsCount(parts[1..], countText); }
  }

  lemma {:induction false} GroupsCount(groups: seq<seq<string>>, overhead: int, countText: Tokenizer)
    requires NeverFails(countText)
    ensures CountGroups(groups, overhead, countText).Some?
    decreases |groups|
  {
    if groups != [] {
      PartsCount(groups[0], countText);
      GroupsCount(groups[1..], overhead, countText);
    }
  }

  function MessageCost(countText: Tokenizer): Message -> int {
    (m: Message) => GroupCost(MessageParts(m), PER_MESSAGE_TOKEN_OVERHEAD, countText)
  }

  function ToolsCost(countText: Tokenizer): seq<Compaction.Tool> -> int {
    (tools: seq<Compaction.Tool>) =>
      match CountGroups(ToolGroups(tools), PER_TOOL_TOKEN_OVERHEAD, countText) case None => 0 case Some(n) => n
  }

  lemma {:induction false} MessagesAdd(ms: seq<Message>, countText: Tokenizer)
    requires NeverFails(countText)
    ensures CountGroups(MessageGroups(ms), PER_MESSAGE_TOKEN_OVERHEAD, countText)
      == Some(Total(ms, MessageCost(countText)))
    decreases |ms|
  {
    if ms != [] {
      PartsCount(MessageParts(ms[0]), countText);
      MessagesAdd(ms[1..], countText);
      assert MessageGroups(ms)[0] == MessageParts(ms[0]);
      assert MessageGroups(ms)[1..] == MessageGroups(ms[1..]);
    }
  }

  lemma {:induction false} CountIsSum(ms: seq<Message>, tools: seq<Compaction.Tool>, countText: Tokenizer)
    requires NeverFails(countText)
    ensures Count(BuiltIn(countText), ms, tools)
      == Some(Total(ms, MessageCost(countText)) + ToolsCost(countText)(tools))
  {
    MessagesAdd(ms, countText);
    GroupsCount(ToolGroups(tools), PER_TOOL_TOKEN_OVERHEAD, countText);
  }

  lemma {:induction false} MessagesCost(m: Message, countText: Tokenizer)
    requires NeverFails(countText)
    ensures MessageCost(countText)(m) > 0
  {
    PartsCount(MessageParts(m), countText);
  }

  /** With a tokenizer that never fails, the built-in counter is additive with positive message costs. */
  lemma {:induction false} BuiltInIsAdditive(countText: Tokenizer)
    requires NeverFails(countText)
    ensures Additive(BuiltIn(countText), MessageCost(countText), ToolsCost(countText))
  {
    forall m ensures MessageCost(countText)(m) > 0 {
      MessagesCost(m, countText);
    }
    forall ms, tools ensures Count(BuiltIn(countText), ms, tools)
      == Some(Total(ms, MessageCost(countText)) + ToolsCost(countText)(tools)) {
      CountIsSum(ms, tools, countText);
    }
  }

  // ----- what is counted -----

  function TextCost(countText: Tokenizer, s: string): int {
    match countText(s) case None => 0 case Some(n) => n
  }

  ghost function CallsCost(countText: Tokenizer, calls: seq<ToolCall>): int {
    if calls == [] then 0
    else
      TextCost(countText, calls[0].name) + TextCost(countText, calls[0].arguments) + CallsCost(countText, calls[1..])
  }

  ghost function SchemasCost(countText: Tokenizer, tools: seq<Compaction.Tool>): int {
    if tools == [] then 0
    else
      8 + TextCost(countText, tools[0].name) + TextCost(countText, tools[0].description)
      + TextCost(countText, tools[0].schema) + SchemasCost(countText, tools[1..])
  }

  lemma {:induction false} PartsConcat(a: seq<string>, b: seq<string>, countText: Tokenizer)
    requires NeverFails(countText)
    ensures CountParts(a + b, countText) == Plus(CountParts(a, countText), CountParts(b, countText))
    decreases |a|
  {
    PartsCount(a, countText);
    PartsCount(b, countText);
    if a == [] {
      assert a + b == b;
    } else {
      assert (a + b)[1..] == a[1..] + b;
      PartsCount(a[1..], countText);
      PartsConcat(a[1..], b, countText);
    }
  }

  lemma {:induction false} OnePart(s: string, countText: Tokenizer)
    requires NeverFails(countText)
    ensures CountParts([s], countText) == Some(TextCost(countText, s))
  {}

  lemma {:induction false} PartsCons(s: string, parts: seq<string>, countText: Tokenizer)
    requires NeverFails(countText)
    ensures CountParts([s] + parts, countText).Some? && CountParts(parts, countText).Some?
    ensures CountParts([s] + parts, countText).value == TextCost(countText, s) + CountParts(parts, countText).value
  {
    PartsConcat([s], parts, countText);
    PartsCount(parts, countText);
    OnePart(s, countText);
  }

  lemma {:induction false} CallPartsCost(calls: seq<ToolCall>, countText: Tokenizer)
    requires NeverFails(countText)
    ensures CountParts(CallParts(calls), countText) == Some(CallsCost(countText, calls))
    decreases |calls|
  {
    if calls != [] {
      var rest := CallParts(calls[1..]);
      CallPartsCost(calls[1..], countText);
      PartsCons(calls[0].arguments, rest, countText);
      PartsCons(calls[0].name, [calls[0].arguments] + rest, countText);
      assert CallParts(calls) == [calls[0].name] + ([calls[0].arguments] + rest);
    }
  }

  lemma {:induction false} FourParts(a: string, b: string, c: string, d: string, tail: seq<string>,
                                     countText: Tokenizer)
    requires NeverFails(countText)
    ensures CountParts([a, b, c, d] + tail, countText).Some? && CountParts(tail, countText).Some?
    ensures CountParts([a, b, c, d] + tail, countText).value == TextCost(countText, a) + TextCost(countText, b)
      + TextCost(countText, c) + TextCost(countText, d) + CountParts(tail, countText).value
  {
    PartsCons(d, tail, countText);
    PartsCons(c, [d] + tail, countText);
    PartsCons(b, [c] + ([d] + tail), countText);
    PartsCons(a, [b] + ([c] + ([d] + tail)), countText);
    assert [a, b, c, d] + tail == [a] + ([b] + ([c] + ([d] + tail)));
  }

  lemma {:induction false} EnvelopeCost(raw: string, calls: seq<ToolCall>, countText: Tokenizer)
    requires NeverFails(countText)
    ensures CountParts((if HasProviderReasoning(raw) then [raw] else []) + CallParts(calls), countText)
      == Some((if HasProviderReasoning(raw) then TextCost(countText, raw) else 0) + CallsCost(countText, calls))
  {
    CallPartsCost(calls, countText);
    if HasProviderReasoning(raw) {
      PartsCons(raw, CallParts(calls), countText);
    } else {
      assert [] + CallParts(calls) == CallParts(calls);
    }
  }

  /** A message costs its role, its text, the id it answers, its reasoning, its envelope if there is one, and the name
      and the arguments of every call. */
  lemma {:induction false} MessageCostIs(m: Message, countText: Tokenizer)
    requires NeverFails(countText)
    ensures MessageCost(countText)(m) == 4
      + TextCost(countText, RoleName(m.role)) + TextCost(countText, m.text) + TextCost(countText, m.toolCallId)
      + TextCost(countText, m.reasoning)
      + (if HasProviderReasoning(m.providerReasoning) then TextCost(countText, m.providerReasoning) else 0)
      + CallsCost(countText, m.toolCalls)
  {
    var tail := (if HasProviderReasoning(m.providerReasoning) then [m.providerReasoning] else [])
      + CallParts(m.toolCalls);
    EnvelopeCost(m.providerReasoning, m.toolCalls, countText);
    FourParts(RoleName(m.role), m.text, m.toolCallId, m.reasoning, tail, countText);
    assert MessageParts(m) == [RoleName(m.role), m.text, m.toolCallId, m.reasoning] + tail;
  }

  lemma {:induction false} ToolCostIs(t: Compaction.Tool, countText: Tokenizer)
    requires NeverFails(countText)
    ensures CountParts(ToolParts(t), countText)
      == Some(TextCost(countText, t.name) + TextCost(countText, t.description) + TextCost(countText, t.schema))
  {
    OnePart(t.schema, countText);
    PartsCons(t.description, [t.schema], countText);
    PartsCons(t.name, [t.description, t.schema], countText);
    assert [t.description, t.schema] == [t.description] + [t.schema];
    assert ToolParts(t) == [t.name] + [t.description, t.schema];
  }

  /** The tools cost their names, descriptions and schemas. */
  lemma {:induction false} ToolsCostIs(tools: seq<Compaction.Tool>, countText: Tokenizer)
    requires NeverFails(countText)
    ensures ToolsCost(countText)(tools) == SchemasCost(countText, tools)
    decreases |tools|
  {
    if tools != [] {
      ToolCostIs(tools[0], countText);
      ToolsCostIs(tools[1..], countText);
      assert ToolGroups(tools)[0] == ToolParts(tools[0]) && ToolGroups(tools)[1..] == ToolGroups(tools[1..]);
      GroupsCount(ToolGroups(tools[1..]), PER_TOOL_TOKEN_OVERHEAD, countText);
    }
  }

  ghost predicate CountedIn(m: Message, s: string) {
    || s == RoleName(m.role) || s == m.text || s == m.toolCallId || s == m.reasoning
    || (HasProviderReasoning(m.providerReasoning) && s == m.providerReasoning)
    || exists c :: 0 <= c < |m.toolCalls| && (s == m.toolCalls[c].name || s == m.toolCalls[c].arguments)
  }

  /** The text is one of those the counter looks at. */
  ghost predicate Counted(ms: seq<Message>, tools: seq<Compaction.Tool>, s: string) {
    || (exists i :: 0 <= i < |ms| && CountedIn(ms[i], s))
    || exists t :: 0 <= t < |tools| && (s == tools[t].name || s == tools[t].description || s == tools[t].schema)
  }

  ghost predicate SomeFails(parts: seq<string>, countText: Tokenizer) {
    exists k :: 0 <= k < |parts| && countText(parts[k]).None?
  }

  lemma {:induction false} PartsFail(parts: seq<string>, countText: Tokenizer)
    ensures CountParts(parts, countText).None? <==> SomeFails(parts, countText)
    decreases |parts|
  {
    if parts != [] {
      PartsFail(parts[1..], countText);
      if k :| 0 <= k < |parts[1..]| && countText(parts[1..][k]).None? { assert parts[k + 1] == parts[1..][k]; }
      if k :| 0 <= k < |parts| && countText(parts[k]).None? { assert k > 0 ==> parts[1..][k - 1] == parts[k]; }
    }
  }

  lemma {:induction false} GroupsFail(groups: seq<seq<string>>, overhead: int, countText: Tokenizer)
    ensures CountGroups(groups, overhead, countText).None? <==>
      exists g :: 0 <= g < |groups| && SomeFails(groups[g], countText)
    decreases |groups|
  {
    if groups != [] {
      PartsFail(groups[0], countText);
      GroupsFail(groups[1..], overhead, countText);
      if g :| 0 <= g < |groups[1..]| && SomeFails(groups[1..][g], countText) { assert groups[g + 1] == groups[1..][g]; }
      if g :| 0 <= g < |groups| && SomeFails(groups[g], countText) { assert g > 0 ==> groups[1..][g - 1] == groups[g]; }
    }
  }

  lemma {:induction false} CallPartsAre(calls: seq<ToolCall>, s: string)
    ensures s in CallParts(calls) <==>
      exists c :: 0 <= c < |calls| && (s == calls[c].name || s == calls[c].arguments)
    decreases |calls|
  {
    if calls != [] {
      CallPartsAre(calls[1..], s);
      if c :| 0 <= c < |calls[1..]| && (s == calls[1..][c].name || s == calls[1..][c].arguments) {
        assert calls[c + 1] == calls[1..][c];
      }
      if c :| 0 <= c < |calls| && (s == calls[c].name || s == calls[c].arguments) {
        assert c > 0 ==> calls[1..][c - 1] == calls[c];
      }
    }
  }

  lemma {:induction false} MessagePartsAre(m: Message, s: string)
    ensures s in MessageParts(m) <==> CountedIn(m, s)
  {
    CallPartsAre(m.toolCalls, s);
  }

  lemma {:induction false} SomeFailsIn(parts: seq<string>, countText: Tokenizer)
    ensures SomeFails(parts, countText) <==> exists s :: s in parts && countText(s).None?
  {
    if k :| 0 <= k < |parts| && countText(parts[k]).None? { assert parts[k] in parts; }
  }

  /** The count fails exactly when the tokenizer fails on one of the texts it is made of. */
  lemma {:induction false} CountFails(ms: seq<Message>, tools: seq<Compaction.Tool>, countText: Tokenizer)
    ensures Count(BuiltIn(countText), ms, tools).None? <==>
      exists s {:trigger Counted(ms, tools, s)} :: Counted(ms, tools, s) && countText(s).None?
  {
    MessagesFail(ms, countText);
    ToolsFail(tools, countText);
    if s :| Counted(ms, tools, s) && countText(s).None? {
      if i :| 0 <= i < |ms| && CountedIn(ms[i], s) { assert FailsIn(ms[i], countText); }
    }
    if i :| 0 <= i < |ms| && FailsIn(ms[i], countText) {
      var s :| CountedIn(ms[i], s) && countText(s).None?;
      assert Counted(ms, tools, s);
    }
    if t :| 0 <= t < |tools| && SchemaFails(tools[t], countText) {
      assert Counted(ms, tools, tools[t].name) && Counted(ms, tools, tools[t].description);
      assert Counted(ms, tools, tools[t].schema);
    }
  }

  ghost predicate FailsIn(m: Message, countText: Tokenizer) {
    exists s {:trigger CountedIn(m, s)} :: CountedIn(m, s) && countText(s).None?
  }

  ghost predicate SchemaFails(t: Compaction.Tool, countText: Tokenizer) {
    countText(t.name).None? || countText(t.description).None? || countText(t.schema).None?
  }

  lemma {:induction false} MessageFails(m: Message, countText: Tokenizer)
    ensures SomeFails(MessageParts(m), countText) <==> FailsIn(m, countText)
  {
    SomeFailsIn(MessageParts(m), countText);
    if s :| s in MessageParts(m) && countText(s).None? { MessagePartsAre(m, s); }
    if s :| CountedIn(m, s) && countText(s).None? { MessagePartsAre(m, s); }
  }

  lemma {:induction false} MessagesFail(ms: seq<Message>, countText: Tokenizer)
    ensures CountGroups(MessageGroups(ms), PER_MESSAGE_TOKEN_OVERHEAD, countText).None? <==>
      exists i :: 0 <= i < |ms| && FailsIn(ms[i], countText)
  {
    GroupsFail(MessageGroups(ms), PER_MESSAGE_TOKEN_OVERHEAD, countText);
    forall i | 0 <= i < |ms| ensures SomeFails(MessageGroups(ms)[i], countText) <==> FailsIn(ms[i], countText) {
      MessageFails(ms[i], countText);
    }
  }

  lemma {:induction false} SchemaPartsFail(t: Compaction.Tool, countText: Tokenizer)
    ensures SomeFails(ToolParts(t), countText) <==> SchemaFails(t, countText)
  {
    var parts := ToolParts(t);
    assert parts[0] == t.name && parts[1] == t.description && parts[2] == t.schema;
  }

  lemma {:induction false} ToolsFail(tools: seq<Compaction.Tool>, countText: Tokenizer)
    ensures CountGroups(ToolGroups(tools), PER_TOOL_TOKEN_OVERHEAD, countText).None? <==>
      exists t :: 0 <= t < |tools| && SchemaFails(tools[t], countText)
  {
    GroupsFail(ToolGroups(tools), PER_TOOL_TOKEN_OVERHEAD, countText);
    forall t | 0 <= t < |tools| ensures SomeFails(ToolGroups(tools)[t], countText) <==> SchemaFails(tools[t], countText)
    {
      SchemaPartsFail(tools[t], countText);
    }
  }

  /** So compaction under the built-in counter is the simple handler, at the price of at most two counts per message. */
  lemma {:induction false} BuiltInCompaction(ms: seq<Message>, tools: seq<Compaction.Tool>, countText: Tokenizer,
                                             budget: int)
    requires NeverFails(countText)
    ensures var c := Compact(ms, tools, BuiltIn(countText), budget);
      c.ok && c.ms == Simple(ms, tools, false, BuiltIn(countText), budget) && c.handed <= 2 * |ms|
  {
    BuiltInIsAdditive(countText);
    FastIsSimple(ms, tools, BuiltIn(countText), budget, MessageCost(countText), ToolsCost(countText));
  }
}
