/** The two drivers' message translations. Converting a single message is outside the
    model; what matters is how tool results are regrouped, and which messages are counted. */
module Wire {
  import opened Transcript
  import opened Repair
  import opened ChatImages

  // ----- Anthropic -----

  const MAX_CACHE_BREAKPOINTS := 4

  /** A converted message, or one user message carrying a whole run of tool results. */
  datatype Param = Single(message: Message) | ToolResults(results: seq<Message>)

  datatype Translated = Translated(params: seq<Param>, system: Option<Message>) | Rejected

  /** How many of the first `p` messages carry a hint. */
  function Hinted(ms: seq<Message>, p: nat): nat
    requires p <= |ms|
  {
    if p == 0 then 0 else Hinted(ms, p - 1) + if ms[p - 1].cacheHint.NoHint? then 0 else 1
  }

  /** Everything the driver demands of the first `p` messages one by one, and the breakpoint budget over all of them. */
  ghost predicate AcceptableUpTo(ms: seq<Message>, p: nat, convertible: Message -> bool)
    requires p <= |ms|
  {
    && (forall i :: 0 <= i < p ==>
          !ms[i].cacheHint.OtherHint? && (convertible(ms[i]) || (i == 0 && ms[i].role.System?)))
    && Hinted(ms, p) <= MAX_CACHE_BREAKPOINTS
  }

  ghost predicate Acceptable(ms: seq<Message>, convertible: Message -> bool) {
    AcceptableUpTo(ms, |ms|, convertible)
  }

  /** Maximal runs of tool results become one message each. */
  function Grouped(ms: seq<Message>): seq<Param>
    decreases |ms|
  {
    if ms == [] then []
    else if ms[0].role.Tool? then
      var n := ToolRun(ms);
      [ToolResults(ms[..n])] + Grouped(ms[n..])
    else [Single(ms[0])] + Grouped(ms[1..])
  }

  method CountCacheBreakpoint(m: Message, breakpoints: nat) returns (ok: bool, count: nat)
    ensures ok <==> !m.cacheHint.OtherHint? && (m.cacheHint.NoHint? || breakpoints < MAX_CACHE_BREAKPOINTS)
    ensures ok ==> count == breakpoints + if m.cacheHint.NoHint? then 0 else 1
  {
    count := breakpoints;
    if m.cacheHint.OtherHint? {
      return false, count;
    }
    if m.cacheHint.NoHint? {
      return true, count;
    }
    count := count + 1;
    ok := count <= MAX_CACHE_BREAKPOINTS;
  }

  /** The first `p` messages passed every check and `count` of them carry a hint. */
  ghost predicate Passed(ms: seq<Message>, p: nat, count: nat, convertible: Message -> bool) {
    p <= |ms| && AcceptableUpTo(ms, p, convertible) && count == Hinted(ms, p)
  }

  method CheckMessage(ms: seq<Message>, p: nat, count: nat, convertible: Message -> bool)
    returns (ok: bool, count': nat)
    requires p < |ms| && (p == 0 ==> !ms[0].role.System?) && Passed(ms, p, count, convertible)
    ensures if ok then Passed(ms, p + 1, count', convertible) else !Acceptable(ms, convertible)
  {
    PrefixAcceptable(ms, p + 1, convertible);
    ok, count' := CountCacheBreakpoint(ms[p], count);
    ok := ok && convertible(ms[p]);
  }

  /** Folds the run of tool results starting at `index`, whose first message the caller has checked already. */
  method ToToolResultMessage(ms: seq<Message>, index: nat, breakpoints: nat, convertible: Message -> bool)
    returns (ok: bool, consumed: nat, count: nat)
    requires index < |ms| && ms[index].role.Tool? && Passed(ms, index + 1, breakpoints, convertible)
    ensures if ok then
              && 0 < consumed == ToolRun(ms[index..]) && index + consumed <= |ms|
              && Passed(ms, index + consumed, count, convertible)
            else !Acceptable(ms, convertible)
  {
    consumed, count, ok := 1, breakpoints, true;
    ghost var n := RunSpan(ms, index);
    while index + consumed < |ms| && ms[index + consumed].role.Tool?
      invariant consumed <= n
      invariant Passed(ms, index + consumed, count, convertible)
    {
      ok, count := CheckMessage(ms, index + consumed, count, convertible);
      if !ok {
        return;
      }
      consumed := consumed + 1;
    }
    ok := true;
  }

  method ToAnthropicMessages(ms: seq<Message>, convertible: Message -> bool) returns (r: Translated)
    ensures r.Translated? <==> Acceptable(ms, convertible)
    ensures r.Translated? ==>
      if ms != [] && ms[0].role.System? then r.system == Some(ms[0]) && r.params == Grouped(ms[1..])
      else r.system == None && r.params == Grouped(ms)
  {
    var converted: seq<Param> := [];
    var system := None;
    var cacheBreakpoints := 0;
    var index := 0;
    if ms != [] && ms[0].role.System? {
      PrefixAcceptable(ms, 1, convertible);
      var ok;
      ok, cacheBreakpoints := CountCacheBreakpoint(ms[0], cacheBreakpoints);
      if !ok {
        return Rejected;
      }
      system := Some(ms[0]);
      index := 1;
    }
    ghost var start := index;
    while index < |ms|
      invariant start <= index <= |ms| && Passed(ms, index, cacheBreakpoints, convertible)
      invariant GroupedUpTo(ms, start, index, converted)
    {
      var ok, param, next;
      ok, param, next, cacheBreakpoints := ToAnthropicParam(ms, index, cacheBreakpoints, convertible);
      if !ok {
        return Rejected;
      }
      GroupNext(ms, start, index, converted, param, next);
      converted := converted + [param];
      index := next;
    }
    assert ms[0..] == ms;
    r := Translated(converted, system);
  }

  /** The messages from `start` up to `index` are converted, the rest is still to do. */
  ghost predicate GroupedUpTo(ms: seq<Message>, start: nat, index: nat, converted: seq<Param>)
    requires start <= index <= |ms|
  {
    converted + Grouped(ms[index..]) == Grouped(ms[start..])
  }

  lemma {:induction false} GroupNext(ms: seq<Message>, start: nat, index: nat, converted: seq<Param>, param: Param,
                                     next: nat)
    requires start <= index < next <= |ms| && GroupedUpTo(ms, start, index, converted)
    requires Grouped(ms[index..]) == [param] + Grouped(ms[next..])
    ensures GroupedUpTo(ms, start, next, converted + [param])
  {
    ConcatAssoc(converted, [param], Grouped(ms[next..]));
  }

  /** One step of the outer loop: a single message, or a whole run of tool results. */
  method ToAnthropicParam(ms: seq<Message>, index: nat, count: nat, convertible: Message -> bool)
    returns (ok: bool, param: Param, next: nat, count': nat)
    requires index < |ms| && Passed(ms, index, count, convertible) && (index == 0 ==> !ms[0].role.System?)
    ensures if ok then index < next <= |ms| && Passed(ms, next, count', convertible)
                       && Grouped(ms[index..]) == [param] + Grouped(ms[next..])
            else !Acceptable(ms, convertible)
  {
    param, next := Single(ms[index]), index + 1;
    ok, count' := CheckMessage(ms, index, count, convertible);
    if ok && ms[index].role.Tool? {
      var consumed;
      ok, consumed, count' := ToToolResultMessage(ms, index, count', convertible);
      if ok {
        param, next := ToolResults(ms[index..index + consumed]), index + consumed;
        RunInPlace(ms, index, next);
      }
    } else if ok {
      SingleInPlace(ms, index);
    }
  }

  lemma {:induction false} GroupedRun(ms: seq<Message>, results: seq<Message>, rest: seq<Message>)
    requires ms != [] && ms[0].role.Tool? && results == ms[..ToolRun(ms)] && rest == ms[ToolRun(ms)..]
    ensures Grouped(ms) == [ToolResults(results)] + Grouped(rest)
  {}

  lemma {:induction false} GroupedSingle(ms: seq<Message>, rest: seq<Message>)
    requires ms != [] && !ms[0].role.Tool? && rest == ms[1..]
    ensures Grouped(ms) == [Single(ms[0])] + Grouped(rest)
  {}

  lemma {:induction false} RunInPlace(ms: seq<Message>, p: nat, next: nat)
    requires p < |ms| && ms[p].role.Tool? && next == p + ToolRun(ms[p..])
    ensures Grouped(ms[p..]) == [ToolResults(ms[p..next])] + Grouped(ms[next..])
  {
    SplitSuffix(ms, p, next - p);
    GroupedRun(ms[p..], ms[p..next], ms[next..]);
  }

  lemma {:induction false} SingleInPlace(ms: seq<Message>, p: nat)
    requires p < |ms| && !ms[p].role.Tool?
    ensures Grouped(ms[p..]) == [Single(ms[p])] + Grouped(ms[p + 1..])
  {
    SplitSuffix(ms, p, 1);
    GroupedSingle(ms[p..], ms[p + 1..]);
  }

  lemma {:induction false} SplitSuffix(ms: seq<Message>, p: nat, n: nat)
    requires p + n <= |ms|
    ensures ms[p..][..n] == ms[p..p + n] && ms[p..][n..] == ms[p + n..]
  {}

  lemma {:induction false} PrefixAcceptable(ms: seq<Message>, p: nat, convertible: Message -> bool)
    requires p <= |ms|
    ensures Acceptable(ms, convertible) ==> AcceptableUpTo(ms, p, convertible)
  {
    HintsGrow(ms, p, |ms|);
  }

  lemma {:induction false} HintsGrow(ms: seq<Message>, p: nat, q: nat)
    requires p <= q <= |ms|
    ensures Hinted(ms, p) <= Hinted(ms, q)
    decreases q
  {
    if p < q { HintsGrow(ms, p, q - 1); }
  }

  /** The run of results starting at `p`, over the indices of the whole transcript. */
  lemma {:induction false} RunSpan(ms: seq<Message>, p: nat) returns (n: nat)
    requires p < |ms| && ms[p].role.Tool?
    ensures n == ToolRun(ms[p..]) && 0 < n <= |ms| - p
    ensures forall j :: p <= j < p + n ==> ms[j].role.Tool?
    ensures p + n < |ms| ==> !ms[p + n].role.Tool?
  {
    n := ToolRun(ms[p..]);
    ToolRunIsRun(ms[p..]);
    assert forall j :: p <= j < |ms| ==> ms[j] == ms[p..][j - p];
  }

  // ----- what the Anthropic grouping guarantees -----

  function Carried(p: Param): seq<Message> {
    match p case Single(m) => [m] case ToolResults(rs) => rs
  }

  function Flatten(ps: seq<Param>): seq<Message> {
    if ps == [] then [] else Carried(ps[0]) + Flatten(ps[1..])
  }

  ghost predicate Uniform(p: Param) {
    match p case Single(m) => !m.role.Tool? case ToolResults(rs) => rs != [] && AllTool(rs)
  }

  /** Result messages hold results only and all other messages none; no two result messages are adjacent. */
  ghost predicate WellGrouped(ps: seq<Param>) {
    && (forall j :: 0 <= j < |ps| ==> Uniform(ps[j]))
    && (forall j :: 0 < j < |ps| && ps[j].ToolResults? ==> ps[j - 1].Single?)
  }

  lemma {:induction false} GroupCons(p: Param, ps: seq<Param>, ms: seq<Message>)
    requires Flatten(ps) == ms && WellGrouped(ps) && Uniform(p)
    requires p.ToolResults? && ps != [] ==> ps[0].Single?
    ensures Flatten([p] + ps) == Carried(p) + ms && WellGrouped([p] + ps)
  {
    var qs := [p] + ps;
    assert qs[1..] == ps && forall j :: 0 < j < |qs| ==> qs[j] == ps[j - 1];
  }

  ghost predicate Exact(ms: seq<Message>) {
    Flatten(Grouped(ms)) == ms && WellGrouped(Grouped(ms))
  }

  lemma {:induction false} ExactRun(results: seq<Message>, rest: seq<Message>)
    requires results != [] && AllTool(results) && (rest == [] || !rest[0].role.Tool?) && Exact(rest)
    ensures Exact(results + rest)
  {
    RunThenRest(results, rest);
    if rest != [] { GroupedSingle(rest, rest[1..]); }
    GroupCons(ToolResults(results), Grouped(rest), rest);
  }

  lemma {:induction false} RunThenRest(results: seq<Message>, rest: seq<Message>)
    requires results != [] && AllTool(results) && (rest == [] || !rest[0].role.Tool?)
    ensures Grouped(results + rest) == [ToolResults(results)] + Grouped(rest)
  {
    ToolRunAppend(results, rest);
    NoRunInFront(rest);
    GroupedRun(results + rest, results, rest);
  }

  lemma {:induction false} ExactSingle(m: Message, rest: seq<Message>)
    requires !m.role.Tool? && Exact(rest)
    ensures Exact([m] + rest)
  {
    GroupedSingle([m] + rest, rest);
    GroupCons(Single(m), Grouped(rest), rest);
  }

  /** Nothing is lost, duplicated or reordered, and runs of results are grouped whole. */
  lemma {:induction false} GroupedIsExact(ms: seq<Message>)
    ensures Flatten(Grouped(ms)) == ms && WellGrouped(Grouped(ms))
    decreases |ms|
  {
    if ms != [] {
      var n := if ms[0].role.Tool? then ToolRun(ms) else 1;
      var first, rest := ms[..n], ms[n..];
      ToolRunIsRun(ms);
      assert ms == first + rest && n > 0;
      GroupedIsExact(rest);
      if ms[0].role.Tool? {
        ExactRun(first, rest);
      } else {
        assert first == [ms[0]];
        ExactSingle(ms[0], rest);
      }
    }
  }

  lemma {:induction false} GroupedConcat(a: seq<Message>, b: seq<Message>)
    requires b == [] || !b[0].role.Tool?
    ensures Grouped(a + b) == Grouped(a) + Grouped(b)
    decreases |a|
  {
    if a == [] {
      assert a + b == b;
    } else if a[0].role.Tool? {
      var n := ToolRun(a);
      ToolRunConcat(a, b);
      assert n > 0;
      assert (a + b)[..n] == a[..n] && (a + b)[n..] == a[n..] + b;
      GroupedConcat(a[n..], b);
      ConcatAssoc([ToolResults(a[..n])], Grouped(a[n..]), Grouped(b));
    } else {
      assert (a + b)[1..] == a[1..] + b;
      GroupedConcat(a[1..], b);
      ConcatAssoc([Single(a[0])], Grouped(a[1..]), Grouped(b));
    }
  }

  /** A unit becomes two messages, whatever surrounds it. */
  lemma {:induction false} GroupedUnit(head: Message, results: seq<Message>, post: seq<Message>)
    requires !head.role.Tool? && AllTool(results) && results != [] && (post == [] || !post[0].role.Tool?)
    ensures Grouped([head] + (results + post)) == [Single(head), ToolResults(results)] + Grouped(post)
  {
    var rest := results + post;
    assert ([head] + rest)[1..] == rest;
    GroupedConcat(results, post);
    OneGroup(results);
    ConcatAssoc([Single(head)], [ToolResults(results)], Grouped(post));
  }

  lemma {:induction false} CutInThree(ms: seq<Message>, i: nat, e: nat)
    requires i < e <= |ms|
    ensures ms == ms[..i] + ([ms[i]] + (ms[i + 1..e] + ms[e..]))
  {}

  /** In a paired transcript all results of an assistant turn ride in the single message right behind it, in order. */
  lemma {:induction false} ResultsRideTogether(ms: seq<Message>, i: nat)
    requires Paired(ms) && i < |ms| && IsHead(ms[i])
    ensures var k := |ms[i].toolCalls|;
      && i + 1 + k <= |ms|
      && Grouped(ms) == Grouped(ms[..i]) + [Single(ms[i]), ToolResults(ms[i + 1..i + 1 + k])] + Grouped(ms[i + 1 + k..])
  {
    UnitStandsAlone(ms, i);
    RidesAt(ms, i, i + 1 + |ms[i].toolCalls|);
  }

  lemma {:induction false} RidesAt(ms: seq<Message>, i: nat, e: nat)
    requires i < e <= |ms| && IsHead(ms[i]) && AnsweredBy(ms[i].toolCalls, ms[i + 1..e])
    requires (e == |ms| || !ms[e].role.Tool?)
    ensures Grouped(ms) == Grouped(ms[..i]) + [Single(ms[i]), ToolResults(ms[i + 1..e])] + Grouped(ms[e..])
  {
    CutInThree(ms, i, e);
    RidesTogether(ms[..i], ms[i], ms[i + 1..e], ms[e..]);
  }

  lemma {:induction false} RidesTogether(pre: seq<Message>, head: Message, results: seq<Message>, post: seq<Message>)
    requires IsHead(head) && AnsweredBy(head.toolCalls, results) && (post == [] || !post[0].role.Tool?)
    ensures Grouped(pre + ([head] + (results + post)))
      == Grouped(pre) + [Single(head), ToolResults(results)] + Grouped(post)
  {
    AnsweredByMembers(head.toolCalls, results);
    GroupedConcat(pre, [head] + (results + post));
    GroupedUnit(head, results, post);
    ConcatAssoc(Grouped(pre), [Single(head), ToolResults(results)], Grouped(post));
  }

  lemma {:induction false} OneGroup(results: seq<Message>)
    requires AllTool(results) && results != []
    ensures Grouped(results) == [ToolResults(results)]
  {
    var n := |results|;
    ToolRunAppend(results, []);
    assert results + [] == results;
    assert results[..n] == results && results[n..] == [];
  }

  // ----- OpenAI -----

  method ToOpenAIMessages(ms: seq<Message>, convertible: Message -> bool) returns (ok: bool, out: seq<ChatParam>)
    ensures ok <==> forall i :: 0 <= i < |ms| ==> convertible(ms[i])
    ensures ok ==> ExactChat(ms, out)
  {
    ok, out := TranslateAll(ms, convertible);
    if ok { FlushedIsExact(ms, out); }
  }

  method TranslateAll(ms: seq<Message>, convertible: Message -> bool) returns (ok: bool, out: seq<ChatParam>)
    ensures ok <==> forall i :: 0 <= i < |ms| ==> convertible(ms[i])
    ensures ok ==> Translating(ms, out, [])
  {
    out := [];
    var withImages: seq<ImageGroup> := [];
    ghost var done: seq<Message> := [];
    ProgressStarts();
    for n := 0 to |ms|
      invariant forall i :: 0 <= i < n ==> convertible(ms[i])
      invariant done == ms[..n] && Progress(done, out, withImages)
    {
      if !convertible(ms[n]) {
        return false, out;
      }
      out, withImages := TranslateNext(done, ms[n], out, withImages);
      done := done + [ms[n]];
    }
    assert done == ms;
    out := FlushToolImages(out, withImages, done);
    ok := true;
  }

  /** One message: what ends a run flushes its images first, and a result with images keeps them for later. */
  method TranslateNext(ghost ms: seq<Message>, m: Message, out: seq<ChatParam>, withImages: seq<ImageGroup>)
    returns (out': seq<ChatParam>, withImages': seq<ImageGroup>)
    requires Progress(ms, out, withImages)
    ensures Progress(ms + [m], out', withImages')
  {
    out', withImages' := out, withImages;
    if !m.role.Tool? {
      out' := FlushToolImages(out, withImages, ms);
      withImages' := [];
    }
    AppendPlain(ms, out', withImages', m);
    out' := out' + [Plain(m)];
    if CarriesImages(m) {
      withImages' := withImages' + [ImageGroup(m.toolCallId, m.images)];
    }
  }

  /** The run of tool results is over: its images, if any, follow in one message. */
  method FlushToolImages(out: seq<ChatParam>, withImages: seq<ImageGroup>, ghost ms: seq<Message>)
    returns (flushed: seq<ChatParam>)
    requires Progress(ms, out, withImages)
    ensures Translating(ms, flushed, []) && flushed == if withImages == [] then out else out + [Images(withImages)]
  {
    flushed := out;
    if withImages != [] {
      Flush(ms, out, withImages);
      flushed := out + [Images(withImages)];
    }
  }
}
