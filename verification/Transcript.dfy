/** The transcript: messages, tool calls, and the pairing relation every other
    component has to respect. `Paired` is stated over indices only, so that it is
    independent of every algorithm that checks, repairs, compacts or extends a
    transcript. */
module Transcript {

  datatype Option<+T> = None | Some(value: T)

  /** A role name that is none of the names the engine knows, so that every string is one role. */
  type OtherName = s: string | s != "" && s != "system" && s != "user" && s != "assistant" && s != "tool"
    witness "developer"

  /** `Unknown` is the empty name, a role that was never set. */
  datatype Role = Unknown | System | User | Assistant | Tool | Other(name: OtherName)

  datatype Origin = NoOrigin | Seed | Turn | Injected

  type OtherHintName = s: string | s != "" && s != "short" && s != "long" witness "medium"

  datatype CacheHint = NoHint | ShortHint | LongHint | OtherHint(name: OtherHintName)

  datatype ToolCall = ToolCall(id: string, name: string, arguments: string)

  datatype MessageInjection = MessageInjection(role: Role, content: string)

  /** Images are opaque payloads; `injection` is the pointer the engine sets on messages it injected. */
  datatype Message = Message(
    role: Role,
    text: string,
    images: seq<string>,
    toolCalls: seq<ToolCall>,
    toolCallId: string,
    isError: bool,
    reasoning: string,
    providerReasoning: string,
    origin: Origin,
    injection: Option<MessageInjection>,
    cacheHint: CacheHint)

  predicate IsHead(m: Message) {
    m.role.Assistant? && m.toolCalls != []
  }

  function Ids(calls: seq<ToolCall>): seq<string> {
    seq(|calls|, i requires 0 <= i < |calls| => calls[i].id)
  }

  function ResultIds(results: seq<Message>): seq<string> {
    seq(|results|, i requires 0 <= i < |results| => results[i].toolCallId)
  }

  function Elems<T>(s: seq<T>): set<T> {
    set x | x in s
  }

  ghost predicate Distinct<T>(s: seq<T>) {
    forall i, j :: 0 <= i < j < |s| ==> s[i] != s[j]
  }

  ghost predicate AllTool(ms: seq<Message>) {
    forall i :: 0 <= i < |ms| ==> ms[i].role.Tool?
  }

  /** Every call is answered exactly once and nothing else is answered. */
  ghost predicate AnsweredBy(calls: seq<ToolCall>, results: seq<Message>) {
    && AllTool(results)
    && Distinct(Ids(calls))
    && multiset(ResultIds(results)) == multiset(Ids(calls))
  }

  /** The assistant at `i` is answered by exactly the messages right behind it. */
  ghost predicate UnitAt(ms: seq<Message>, i: nat)
    requires i < |ms|
  {
    var k := |ms[i].toolCalls|;
    i + k < |ms| && AnsweredBy(ms[i].toolCalls, ms[i + 1..i + 1 + k])
  }

  /** The tool message at `j` lies in the answer to some assistant turn. */
  ghost predicate Owned(ms: seq<Message>, j: nat)
    requires j < |ms|
  {
    exists i: nat :: i < j && IsHead(ms[i]) && j <= i + |ms[i].toolCalls|
  }

  /** The protocol: every declared call is answered exactly once by the block of
      tool messages directly behind it, and no tool message stands elsewhere. */
  ghost predicate Paired(ms: seq<Message>) {
    && (forall i {:trigger UnitAt(ms, i)} {:trigger IsHead(ms[i])} :: 0 <= i < |ms| && IsHead(ms[i]) ==> UnitAt(ms, i))
    && (forall j {:trigger Owned(ms, j)} :: 0 <= j < |ms| && ms[j].role.Tool? ==> Owned(ms, j))
  }

  /** No unit straddles position `p`. */
  ghost predicate Boundary(ms: seq<Message>, p: nat)
    requires p <= |ms|
  {
    forall i :: 0 <= i < p && IsHead(ms[i]) ==> i + |ms[i].toolCalls| < p
  }

  /** Repair and compaction treat any message with calls as the head of a unit. */
  ghost predicate CallsOnAssistants(ms: seq<Message>) {
    forall i :: 0 <= i < |ms| && ms[i].toolCalls != [] ==> ms[i].role.Assistant?
  }

  /** What recordInjections guarantees of every message it writes. */
  ghost predicate InjectionsPlain(ms: seq<Message>) {
    forall i :: 0 <= i < |ms| && ms[i].origin.Injected? ==> ms[i].toolCalls == [] && !ms[i].role.Tool?
  }

  // ----- sequences and counting -----

  lemma {:induction false} ConcatAssoc<T>(a: seq<T>, b: seq<T>, c: seq<T>)
    ensures a + (b + c) == a + b + c
  {}

  lemma {:induction false} ElemsCons<T>(x: T, s: seq<T>)
    ensures Elems([x] + s) == {x} + Elems(s)
  {
    assert forall y :: y in [x] + s <==> y == x || y in s;
  }

  lemma {:induction false} ElemsSnoc<T>(s: seq<T>, x: T)
    ensures Elems(s + [x]) == Elems(s) + {x}
  {
    assert forall y :: y in s + [x] <==> y == x || y in s;
  }

  lemma {:induction false} DistinctCons<T(!new)>(x: T, s: seq<T>)
    ensures Distinct([x] + s) <==> x !in s && Distinct(s)
  {
    var t := [x] + s;
    assert forall i :: 0 <= i < |s| ==> t[i + 1] == s[i];
    if Distinct(t) {
      forall i | 0 <= i < |s| ensures s[i] != x { assert t[0] != t[i + 1]; }
      forall i, j | 0 <= i < j < |s| ensures s[i] != s[j] { assert t[i + 1] != t[j + 1]; }
    }
    if x !in s && Distinct(s) {
      forall i, j | 0 <= i < j < |t| ensures t[i] != t[j] {
        assert t[j] == s[j - 1];
        if i > 0 { assert s[i - 1] != s[j - 1]; }
      }
    }
  }

  lemma {:induction false} DistinctIffMultiplicity<T(!new)>(s: seq<T>)
    ensures Distinct(s) <==> forall x :: multiset(s)[x] <= 1
    decreases |s|
  {
    if s != [] {
      var n := |s| - 1;
      assert s == s[..n] + [s[n]];
      DistinctIffMultiplicity(s[..n]);
      if Distinct(s) {
        assert s[n] !in s[..n];
        assert forall x :: multiset(s)[x] == multiset(s[..n])[x] + (if x == s[n] then 1 else 0);
      } else {
        if Distinct(s[..n]) {
          var i :| 0 <= i < n && s[i] == s[n];
          assert s[..n][i] == s[n];
          assert multiset(s[..n])[s[n]] >= 1;
          assert multiset(s)[s[n]] == multiset(s[..n])[s[n]] + 1;
        } else {
          var x :| multiset(s[..n])[x] > 1;
          assert multiset(s)[x] >= multiset(s[..n])[x];
        }
      }
    }
  }

  lemma {:induction false} DistinctElems<T(!new)>(s: seq<T>)
    requires Distinct(s)
    ensures |Elems(s)| == |s|
    decreases |s|
  {
    if s != [] {
      var n := |s| - 1;
      DistinctElems(s[..n]);
      assert Elems(s) == Elems(s[..n]) + {s[n]};
      assert s[n] !in s[..n];
    }
  }

  /** Pigeonhole: distinct answers drawn from equally many distinct ids are those ids. */
  lemma {:induction false} SamePigeons<T(!new)>(s: seq<T>, t: seq<T>)
    requires Distinct(s) && Distinct(t) && |s| == |t|
    requires forall x :: x in t ==> x in s
    ensures multiset(s) == multiset(t)
  {
    DistinctElems(s);
    DistinctElems(t);
    SubsetOfEqualSize(Elems(t), Elems(s));
    DistinctIffMultiplicity(s);
    DistinctIffMultiplicity(t);
    forall x ensures multiset(s)[x] == multiset(t)[x] {
      assert x in Elems(s) <==> x in Elems(t);
      assert x in s <==> x in multiset(s);
      assert x in t <==> x in multiset(t);
    }
  }

  lemma {:induction false} SubsetOfEqualSize<T(!new)>(a: set<T>, b: set<T>)
    requires a <= b && |a| == |b|
    ensures a == b
  {
    assert |b - a| == |b| - |a|;
  }

  /** What a unit says about one result: it answers a call, and no other result answers the same one. */
  lemma {:induction false} AnsweredByMembers(calls: seq<ToolCall>, results: seq<Message>)
    requires AnsweredBy(calls, results)
    ensures |results| == |calls|
    ensures Distinct(ResultIds(results))
    ensures forall x :: x in ResultIds(results) <==> x in Ids(calls)
  {
    assert |multiset(ResultIds(results))| == |ResultIds(results)|;
    DistinctIffMultiplicity(Ids(calls));
    DistinctIffMultiplicity(ResultIds(results));
    forall x ensures x in ResultIds(results) <==> x in Ids(calls) {
      assert x in multiset(ResultIds(results)) <==> x in multiset(Ids(calls));
    }
  }

  lemma {:induction false} MembersAnsweredBy(calls: seq<ToolCall>, results: seq<Message>)
    requires AllTool(results) && |results| == |calls|
    requires Distinct(Ids(calls)) && Distinct(ResultIds(results))
    requires forall x :: x in ResultIds(results) ==> x in Ids(calls)
    ensures AnsweredBy(calls, results)
  {
    SamePigeons(Ids(calls), ResultIds(results));
  }

  // ----- structure of paired transcripts -----

  lemma {:induction false} SliceOfConcat<T>(a: seq<T>, b: seq<T>, i: nat, j: nat)
    requires i <= j <= |a| + |b|
    ensures j <= |a| ==> (a + b)[i..j] == a[i..j]
    ensures i >= |a| ==> (a + b)[i..j] == b[i - |a|..j - |a|]
  {}

  /** Slices of a suffix are slices of the whole. */
  lemma {:induction false} SliceOfSuffix<T>(s: seq<T>, p: nat, n: nat)
    requires p + 1 + n <= |s|
    ensures s[p..][1..] == s[p + 1..] && s[p..][1..1 + n] == s[p + 1..p + 1 + n] && s[p..][1 + n..] == s[p + 1 + n..]
  {}

  lemma {:induction false} PairedSingle(m: Message)
    requires !m.role.Tool? && !IsHead(m)
    ensures Paired([m])
  {}

  lemma {:induction false} PairedUnit(h: Message, results: seq<Message>)
    requires IsHead(h) && AnsweredBy(h.toolCalls, results)
    ensures Paired([h] + results)
  {
    AnsweredByMembers(h.toolCalls, results);
    var ms := [h] + results;
    assert ms[1..1 + |h.toolCalls|] == results;
    assert forall j :: 0 < j < |ms| ==> ms[j] == results[j - 1];
    forall j | 0 <= j < |ms| && ms[j].role.Tool? ensures Owned(ms, j) {
      assert IsHead(ms[0]) && 0 < j;
    }
  }

  /** Units and ownership only look at the messages around them, so they survive any embedding. */
  lemma {:induction false} UnitAtShift(ms: seq<Message>, i: nat, ns: seq<Message>, j: nat)
    requires i < |ms| && j < |ns| && ms[i] == ns[j] && UnitAt(ms, i)
    requires j + |ns[j].toolCalls| < |ns|
    requires ns[j + 1..j + 1 + |ns[j].toolCalls|] == ms[i + 1..i + 1 + |ms[i].toolCalls|]
    ensures UnitAt(ns, j)
  {}

  lemma {:induction false} OwnedShift(ms: seq<Message>, j: nat, ns: seq<Message>, d: int)
    requires j < |ms| && Owned(ms, j)
    requires forall i :: 0 <= i <= j && IsHead(ms[i]) && j <= i + |ms[i].toolCalls| ==>
      0 <= i + d < |ns| && ns[i + d] == ms[i]
    requires 0 <= j + d < |ns|
    ensures Owned(ns, j + d)
  {
    var i: nat :| i < j && IsHead(ms[i]) && j <= i + |ms[i].toolCalls|;
    assert IsHead(ns[i + d]);
  }

  lemma {:induction false} PairedConcat(a: seq<Message>, b: seq<Message>)
    requires Paired(a) && Paired(b)
    ensures Paired(a + b)
  {
    forall i | 0 <= i < |a + b| && IsHead((a + b)[i]) ensures UnitAt(a + b, i) {
      UnitAtConcat(a, b, i);
    }
    forall j | 0 <= j < |a + b| && (a + b)[j].role.Tool? ensures Owned(a + b, j) {
      OwnedConcat(a, b, j);
    }
  }

  lemma {:induction false} UnitAtConcat(a: seq<Message>, b: seq<Message>, i: nat)
    requires Paired(a) && Paired(b) && i < |a + b| && IsHead((a + b)[i])
    ensures UnitAt(a + b, i)
  {
    if i < |a| {
      assert UnitAt(a, i);
      UnitAtLeft(a, b, i);
    } else {
      assert UnitAt(b, i - |a|);
      UnitAtRight(a, b, i - |a|);
    }
  }

  lemma {:induction false} OwnedConcat(a: seq<Message>, b: seq<Message>, j: nat)
    requires Paired(a) && Paired(b) && j < |a + b| && (a + b)[j].role.Tool?
    ensures Owned(a + b, j)
  {
    if j < |a| {
      assert Owned(a, j);
      OwnedLeft(a, b, j);
    } else {
      assert Owned(b, j - |a|);
      OwnedRight(a, b, j - |a|);
    }
  }

  lemma {:induction false} UnitAtLeft(a: seq<Message>, b: seq<Message>, i: nat)
    requires i < |a| && UnitAt(a, i)
    ensures UnitAt(a + b, i)
  {
    SliceOfConcat(a, b, i + 1, i + 1 + |a[i].toolCalls|);
  }

  lemma {:induction false} UnitAtRight(a: seq<Message>, b: seq<Message>, i: nat)
    requires i < |b| && UnitAt(b, i)
    ensures UnitAt(a + b, |a| + i)
  {
    SliceOfConcat(a, b, |a| + i + 1, |a| + i + 1 + |b[i].toolCalls|);
  }

  lemma {:induction false} OwnedLeft(a: seq<Message>, b: seq<Message>, j: nat)
    requires j < |a| && Owned(a, j)
    ensures Owned(a + b, j)
  {
    var i: nat :| i < j && IsHead(a[i]) && j <= i + |a[i].toolCalls|;
    assert (a + b)[i] == a[i];
  }

  lemma {:induction false} OwnedRight(a: seq<Message>, b: seq<Message>, j: nat)
    requires j < |b| && Owned(b, j)
    ensures Owned(a + b, |a| + j)
  {
    var i: nat :| i < j && IsHead(b[i]) && j <= i + |b[i].toolCalls|;
    assert (a + b)[|a| + i] == b[i];
  }

  lemma {:induction false} PairedPrefix(ms: seq<Message>, p: nat)
    requires p <= |ms| && Paired(ms) && Boundary(ms, p)
    ensures Paired(ms[..p])
  {
    var a := ms[..p];
    forall i | 0 <= i < |a| && IsHead(a[i]) ensures UnitAt(a, i) {
      UnitAtShift(ms, i, a, i);
    }
    forall j | 0 <= j < |a| && a[j].role.Tool? ensures Owned(a, j) {
      OwnedShift(ms, j, a, 0);
    }
  }

  lemma {:induction false} UnitAtSuffix(ms: seq<Message>, p: nat, i: nat)
    requires p + i < |ms| && UnitAt(ms, p + i)
    ensures UnitAt(ms[p..], i)
  {
    var k := |ms[p + i].toolCalls|;
    assert ms[p..][i + 1..i + 1 + k] == ms[p + i + 1..p + i + 1 + k];
  }

  lemma {:induction false} OwnedSuffix(ms: seq<Message>, p: nat, j: nat)
    requires p + j < |ms| && Boundary(ms, p) && Owned(ms, p + j)
    ensures Owned(ms[p..], j)
  {
    var i: nat :| i < p + j && IsHead(ms[i]) && p + j <= i + |ms[i].toolCalls|;
    assert ms[p..][i - p] == ms[i];
  }

  lemma {:induction false} PairedSuffix(ms: seq<Message>, p: nat)
    requires p <= |ms| && Paired(ms) && Boundary(ms, p)
    ensures Paired(ms[p..])
  {
    var b := ms[p..];
    forall i | 0 <= i < |b| && IsHead(b[i]) ensures UnitAt(b, i) {
      assert b[i] == ms[p + i];
      UnitAtSuffix(ms, p, i);
    }
    forall j | 0 <= j < |b| && b[j].role.Tool? ensures Owned(b, j) {
      assert b[j] == ms[p + j];
      OwnedSuffix(ms, p, j);
    }
  }

  /** No tool message stands right at a boundary: it would be an orphan. */
  lemma {:induction false} NoToolAtBoundary(ms: seq<Message>, p: nat)
    requires p < |ms| && Boundary(ms, p) && Paired(ms)
    ensures !ms[p].role.Tool?
  {
    assert ms[p].role.Tool? ==> Owned(ms, p);
  }

  /** A unit of a paired transcript ends at a boundary. */
  lemma {:induction false} UnitEndsAtBoundary(ms: seq<Message>, i: nat)
    requires i < |ms| && IsHead(ms[i]) && Boundary(ms, i) && UnitAt(ms, i)
    ensures Boundary(ms, i + 1 + |ms[i].toolCalls|)
  {
    var k := |ms[i].toolCalls|;
    forall j | 0 <= j < i + 1 + k && IsHead(ms[j]) ensures j + |ms[j].toolCalls| < i + 1 + k {
      if j > i { UnitMember(ms, i, j); }
    }
  }

  lemma {:induction false} UnitMember(ms: seq<Message>, h: nat, p: nat)
    requires h < |ms| && UnitAt(ms, h) && h < p <= h + |ms[h].toolCalls|
    ensures ms[p].role.Tool?
  {
    assert ms[h + 1..h + 1 + |ms[h].toolCalls|][p - h - 1] == ms[p];
  }

  /** Units hold tool results only behind their head, so every head of a paired transcript starts at a boundary. */
  lemma {:induction false} HeadAtBoundary(ms: seq<Message>, i: nat)
    requires Paired(ms) && i < |ms| && IsHead(ms[i])
    ensures Boundary(ms, i)
  {
    forall h | 0 <= h < i && IsHead(ms[h]) ensures h + |ms[h].toolCalls| < i {
      assert UnitAt(ms, h);
      if i <= h + |ms[h].toolCalls| { UnitMember(ms, h, i); }
    }
  }

  /** In a paired transcript a turn's results follow it and end where no further result stands. */
  lemma {:induction false} UnitStandsAlone(ms: seq<Message>, i: nat)
    requires Paired(ms) && i < |ms| && IsHead(ms[i])
    ensures var e := i + 1 + |ms[i].toolCalls|;
      e <= |ms| && AnsweredBy(ms[i].toolCalls, ms[i + 1..e]) && Boundary(ms, e) && (e == |ms| || !ms[e].role.Tool?)
  {
    assert UnitAt(ms, i);
    HeadAtBoundary(ms, i);
    UnitEndsAtBoundary(ms, i);
    var e := i + 1 + |ms[i].toolCalls|;
    if e < |ms| { NoToolAtBoundary(ms, e); }
  }
}
