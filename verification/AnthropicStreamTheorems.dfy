/** Any chunking of a block list assembles to the replay of that list. */
module AnthropicStreamTheorems {
  import opened Transcript
  import opened Validators
  import opened Assembler
  import opened AssistantTurn
  import opened AnthropicStream

  ghost predicate Chunking(blocks: seq<Block>, events: seq<Event>, n: nat) {
    n <= |events| && forall m :: 0 <= m < n ==> Follows(blocks, events, m)
  }

  lemma {:induction false} StartedBound(blocks: seq<Block>, events: seq<Event>, n: nat)
    requires Chunking(blocks, events, n)
    ensures Started(events, n) <= |blocks|
    decreases n
  {
    if n > 0 {
      StartedBound(blocks, events, n - 1);
      assert Follows(blocks, events, n - 1);
    }
  }

  lemma {:induction false} StartedGrows(events: seq<Event>, m: nat, n: nat)
    requires m <= n <= |events|
    ensures Started(events, m) <= Started(events, n)
    decreases n
  {
    if m < n { StartedGrows(events, m, n - 1); }
  }

  lemma {:induction false} SentGrows(events: seq<Event>, m: nat, n: nat, i: nat)
    requires m <= n <= |events|
    ensures |Sent(events, m, i)| <= |Sent(events, n, i)|
    decreases n
  {
    if m < n { SentGrows(events, m, n - 1, i); }
  }

  lemma {:induction false} NothingSentYet(blocks: seq<Block>, events: seq<Event>, n: nat, i: nat)
    requires Chunking(blocks, events, n) && i >= Started(events, n)
    ensures Sent(events, n, i) == ""
    decreases n
  {
    if n > 0 {
      NothingSentYet(blocks, events, n - 1, i);
      assert Follows(blocks, events, n - 1);
    }
  }

  lemma {:induction false} ToolsGrow(blocks: seq<Block>, m: nat, n: nat)
    requires m <= n <= |blocks|
    ensures Tools(blocks, m) <= Tools(blocks, n)
    ensures m < n && blocks[m].kind.ToolUse? ==> Tools(blocks, m) < Tools(blocks, n)
    decreases n
  {
    if m < n { ToolsGrow(blocks, m, n - 1); }
  }

  /** Every ordinal belongs to a tool block. */
  lemma {:induction false} ToolAt(blocks: seq<Block>, n: nat, c: nat) returns (i: nat)
    requires n <= |blocks| && c < Tools(blocks, n)
    ensures i < n && blocks[i].kind.ToolUse? && Tools(blocks, i) == c
    decreases n
  {
    if blocks[n - 1].kind.ToolUse? && Tools(blocks, n - 1) == c {
      i := n - 1;
    } else {
      i := ToolAt(blocks, n - 1, c);
    }
  }

  // ----- tool calls -----

  /** Indices 0 to k-1 point at records 0 to k-1. */
  ghost predicate Dense(st: Table, k: nat) {
    && |st.slots| == k && |st.cells| == k
    && (forall j :: 0 <= j < k ==> At(j) in st.slots && st.slots[At(j)] == j)
    && (forall x :: x in st.slots ==> 0 <= x.n < k)
  }

  lemma {:induction false} DenseOpen(st: Table, k: nat, d: ToolCallDelta)
    requires Dense(st, k) && Linked(st) && k < MAX_TOOL_CALLS_PER_ROUND
    requires d.index == At(k) && |d.arguments| <= MAX_TOOL_CALL_ARGUMENTS
    ensures Dense(Step(st, d), k + 1)
    ensures Step(st, d).cells == st.cells + [ToolCall(d.id, d.name, d.arguments)]
  {
    assert At(k) !in st.slots;
    var call := Merge(ToolCall("", "", ""), d);
    assert call == ToolCall(d.id, d.name, d.arguments);
    assert Step(st, d) == Table(st.slots[At(k) := k], st.cells + [call]);
  }

  lemma {:induction false} DenseAppend(st: Table, k: nat, d: ToolCallDelta)
    requires Dense(st, k) && Linked(st) && 0 <= d.index.n < k && d.id == "" && d.name == ""
    requires |st.cells[d.index.n].arguments| + |d.arguments| <= MAX_TOOL_CALL_ARGUMENTS
    ensures Dense(Step(st, d), k)
    ensures Step(st, d).cells
      == st.cells[d.index.n := st.cells[d.index.n].(arguments := st.cells[d.index.n].arguments + d.arguments)]
  {
    var c := d.index.n;
    assert d.index == At(c) && st.slots[d.index] == c;
    assert Merge(st.cells[c], d) == st.cells[c].(arguments := st.cells[c].arguments + d.arguments);
    assert Step(st, d) == Table(st.slots, st.cells[c := Merge(st.cells[c], d)]);
  }

  /** The calls of the first `b` blocks are open, each holding what was sent for it. */
  ghost predicate Holds(blocks: seq<Block>, b: nat, indexes: map<nat, nat>, calls: Table, events: seq<Event>, n: nat)
    requires b <= |blocks| && n <= |events|
  {
    && |indexes| == Tools(blocks, b)
    && Dense(calls, Tools(blocks, b))
    && (forall i :: i in indexes ==> i < b)
    && (forall i :: 0 <= i < b && blocks[i].kind.ToolUse? ==>
        && i in indexes && indexes[i] == Tools(blocks, i) && Tools(blocks, i) < Tools(blocks, b)
        && calls.cells[Tools(blocks, i)] == ToolCall(blocks[i].id, blocks[i].name, Sent(events, n, i)))
  }

  ghost predicate StreamsCalls(blocks: seq<Block>, events: seq<Event>, n: nat)
    requires n <= |events| && Started(events, n) <= |blocks|
  {
    var s := Stream(events, n);
    s.ok && Holds(blocks, Started(events, n), s.indexes, s.turn.calls, events, n)
  }

  ghost predicate WithinCaps(blocks: seq<Block>, events: seq<Event>) {
    && Tools(blocks, |blocks|) <= MAX_TOOL_CALLS_PER_ROUND
    && forall i :: 0 <= i < |blocks| && blocks[i].kind.ToolUse? ==>
      |Sent(events, |events|, i)| <= MAX_TOOL_CALL_ARGUMENTS
  }

  lemma {:induction false} StreamCalls(blocks: seq<Block>, events: seq<Event>, n: nat)
    requires Chunking(blocks, events, n) && WithinCaps(blocks, events)
    ensures Started(events, n) <= |blocks| && StreamsCalls(blocks, events, n)
    decreases n
  {
    if n == 0 {
      assert Holds(blocks, 0, map[], Table(map[], []), events, n);
    } else {
      var m := n - 1;
      StreamCalls(blocks, events, m);
      assert Follows(blocks, events, m);
      StartedBound(blocks, events, n);
      HoldsNext(blocks, events, m, Stream(events, m));
    }
  }

  /** One more event of a chunking, from any state of the stream that holds the calls so far. */
  lemma {:induction false} HoldsNext(blocks: seq<Block>, events: seq<Event>, n: nat, s: Streamed)
    requires n < |events| && Chunking(blocks, events, n) && WithinCaps(blocks, events) && Follows(blocks, events, n)
    requires Started(events, n) <= |blocks| && Started(events, n + 1) <= |blocks|
    requires s.ok && Linked(s.turn.calls) && Holds(blocks, Started(events, n), s.indexes, s.turn.calls, events, n)
    ensures var t := StreamNext(s, events[n]);
      t.ok && Holds(blocks, Started(events, n + 1), t.indexes, t.turn.calls, events, n + 1)
  {
    match events[n] {
      case Start(_, block) =>
        if block.kind.ToolUse? {
          StreamOpensCall(blocks, events, n, s);
        } else {
          HoldsMore(blocks, Started(events, n), s.indexes, s.turn.calls, events, n);
        }
      case Fragment(_, kind, _) =>
        if kind.ToolUse? {
          StreamExtendsCall(blocks, events, n, s);
        } else {
          HoldsStill(blocks, Started(events, n), s.indexes, s.turn.calls, events, n);
        }
      case OtherEvent => HoldsStill(blocks, Started(events, n), s.indexes, s.turn.calls, events, n);
    }
  }

  lemma {:induction false} HoldsStill(blocks: seq<Block>, b: nat, indexes: map<nat, nat>, calls: Table,
                                      events: seq<Event>, n: nat)
    requires b <= |blocks| && n < |events| && Holds(blocks, b, indexes, calls, events, n) && Follows(blocks, events, n)
    requires !(events[n].Fragment? && events[n].kind.ToolUse?)
    ensures Holds(blocks, b, indexes, calls, events, n + 1)
  {}

  lemma {:induction false} HoldsMore(blocks: seq<Block>, b: nat, indexes: map<nat, nat>, calls: Table,
                                     events: seq<Event>, n: nat)
    requires b < |blocks| && !blocks[b].kind.ToolUse? && n < |events| && events[n].Start?
    requires Holds(blocks, b, indexes, calls, events, n)
    ensures Holds(blocks, b + 1, indexes, calls, events, n + 1)
  {}

  lemma {:induction false} HoldsOpen(blocks: seq<Block>, b: nat, indexes: map<nat, nat>, calls: Table, calls': Table,
                                     events: seq<Event>, n: nat)
    requires b < |blocks| && blocks[b].kind.ToolUse? && n < |events| && Holds(blocks, b, indexes, calls, events, n)
    requires Dense(calls', |indexes| + 1) && calls'.cells == calls.cells + [ToolCall(blocks[b].id, blocks[b].name, "")]
    requires Sent(events, n + 1, b) == "" && forall i :: 0 <= i < b ==> Sent(events, n + 1, i) == Sent(events, n, i)
    ensures Holds(blocks, b + 1, indexes[b := |indexes|], calls', events, n + 1)
  {
    OpenedIndexes(indexes, b);
  }

  lemma {:induction false} OpenedIndexes(indexes: map<nat, nat>, b: nat)
    requires forall i :: i in indexes ==> i < b
    ensures b !in indexes && |indexes[b := |indexes|]| == |indexes| + 1
    ensures var m := indexes[b := |indexes|]; forall i :: i in m ==> i < b + 1
  {}

  lemma {:induction false} StreamOpensCall(blocks: seq<Block>, events: seq<Event>, n: nat, s: Streamed)
    requires n < |events| && Chunking(blocks, events, n) && WithinCaps(blocks, events) && Follows(blocks, events, n)
    requires s.ok && Linked(s.turn.calls) && Started(events, n) <= |blocks|
    requires Holds(blocks, Started(events, n), s.indexes, s.turn.calls, events, n)
    requires events[n].Start? && events[n].block.kind.ToolUse?
    ensures var t := StreamNext(s, events[n]);
      && t.ok && Started(events, n + 1) <= |blocks|
      && Holds(blocks, Started(events, n + 1), t.indexes, t.turn.calls, events, n + 1)
  {
    var b := Started(events, n);
    NothingSentYet(blocks, events, n, b);
    ToolsGrow(blocks, b + 1, |blocks|);
    OpensNext(blocks, b, s, events, n);
  }

  lemma {:induction false} OpensNext(blocks: seq<Block>, b: nat, s: Streamed, events: seq<Event>, n: nat)
    requires b < |blocks| && blocks[b].kind.ToolUse? && n < |events| && Sent(events, n, b) == ""
    requires s.ok && Linked(s.turn.calls) && Holds(blocks, b, s.indexes, s.turn.calls, events, n)
    requires |s.indexes| < MAX_TOOL_CALLS_PER_ROUND
    requires events[n].Start? && events[n].index == b && events[n].block.kind.ToolUse?
    requires events[n].block.id == blocks[b].id && events[n].block.name == blocks[b].name
    ensures var t := StreamNext(s, events[n]);
      t.ok && Holds(blocks, b + 1, t.indexes, t.turn.calls, events, n + 1)
  {
    OpensCall(blocks, b, s.indexes, s.turn.calls, events, n);
    NextOnStart(s, events[n]);
  }

  lemma {:induction false} NextOnStart(s: Streamed, e: Event)
    requires s.ok && Linked(s.turn.calls) && e.Start? && e.block.kind.ToolUse?
    ensures var t := StreamNext(s, e);
      && t.ok && t.indexes == s.indexes[e.index := |s.indexes|]
      && t.turn.calls == Step(s.turn.calls, ToolCallDelta(At(|s.indexes|), e.block.id, e.block.name, ""))
  {}

  lemma {:induction false} NextOnFragment(s: Streamed, e: Event)
    requires s.ok && Linked(s.turn.calls) && e.Fragment? && e.kind.ToolUse? && e.index in s.indexes
    ensures var t := StreamNext(s, e);
      && t.ok && t.indexes == s.indexes
      && t.turn.calls == Step(s.turn.calls, ToolCallDelta(At(s.indexes[e.index]), "", "", e.payload))
  {}

  lemma {:induction false} OpensCall(blocks: seq<Block>, b: nat, indexes: map<nat, nat>, calls: Table,
                                     events: seq<Event>, n: nat)
    requires b < |blocks| && blocks[b].kind.ToolUse? && Linked(calls) && n < |events|
    requires Holds(blocks, b, indexes, calls, events, n)
    requires |indexes| < MAX_TOOL_CALLS_PER_ROUND && !events[n].Fragment? && Sent(events, n, b) == ""
    ensures Holds(blocks, b + 1, indexes[b := |indexes|],
                  Step(calls, ToolCallDelta(At(|indexes|), blocks[b].id, blocks[b].name, "")), events, n + 1)
  {
    var d := ToolCallDelta(At(|indexes|), blocks[b].id, blocks[b].name, "");
    DenseOpen(calls, |indexes|, d);
    HoldsOpen(blocks, b, indexes, calls, Step(calls, d), events, n);
  }

  lemma {:induction false} HoldsAppend(blocks: seq<Block>, b: nat, indexes: map<nat, nat>, calls: Table,
                                       events: seq<Event>, n: nat)
    requires n < |events| && events[n].Fragment? && events[n].index < b <= |blocks|
    requires blocks[events[n].index].kind.ToolUse?
    requires Linked(calls) && Holds(blocks, b, indexes, calls, events, n)
    requires |Sent(events, n + 1, events[n].index)| <= MAX_TOOL_CALL_ARGUMENTS
    ensures Holds(blocks, b, indexes,
      Step(calls, ToolCallDelta(At(indexes[events[n].index]), "", "", events[n].payload)), events, n + 1)
  {
    var i, payload := events[n].index, events[n].payload;
    DenseAppend(calls, Tools(blocks, b), ToolCallDelta(At(indexes[i]), "", "", payload));
    forall j | 0 <= j < b && blocks[j].kind.ToolUse? && j != i ensures Tools(blocks, j) != Tools(blocks, i) {
      ToolsGrow(blocks, if i < j then i else j, if i < j then j else i);
    }
  }

  lemma {:induction false} StreamExtendsCall(blocks: seq<Block>, events: seq<Event>, n: nat, s: Streamed)
    requires n < |events| && WithinCaps(blocks, events) && Follows(blocks, events, n)
    requires s.ok && Linked(s.turn.calls) && Started(events, n) <= |blocks|
    requires Holds(blocks, Started(events, n), s.indexes, s.turn.calls, events, n)
    requires events[n].Fragment? && events[n].kind.ToolUse?
    ensures var t := StreamNext(s, events[n]);
      t.ok && Holds(blocks, Started(events, n), t.indexes, t.turn.calls, events, n + 1)
  {
    SentWithinCap(blocks, events, n + 1, events[n].index);
    ExtendsNext(blocks, Started(events, n), s, events, n);
  }

  lemma {:induction false} SentWithinCap(blocks: seq<Block>, events: seq<Event>, n: nat, i: nat)
    requires n <= |events| && WithinCaps(blocks, events) && i < |blocks| && blocks[i].kind.ToolUse?
    ensures |Sent(events, n, i)| <= MAX_TOOL_CALL_ARGUMENTS
  {
    SentGrows(events, n, |events|, i);
  }

  lemma {:induction false} ExtendsNext(blocks: seq<Block>, b: nat, s: Streamed, events: seq<Event>, n: nat)
    requires n < |events| && events[n].Fragment? && events[n].kind.ToolUse?
    requires events[n].index < b <= |blocks| && blocks[events[n].index].kind.ToolUse?
    requires s.ok && Linked(s.turn.calls) && Holds(blocks, b, s.indexes, s.turn.calls, events, n)
    requires |Sent(events, n + 1, events[n].index)| <= MAX_TOOL_CALL_ARGUMENTS
    ensures var t := StreamNext(s, events[n]);
      t.ok && Holds(blocks, b, t.indexes, t.turn.calls, events, n + 1)
  {
    HoldsAppend(blocks, b, s.indexes, s.turn.calls, events, n);
    NextOnFragment(s, events[n]);
  }

  ghost predicate ReplaysCalls(blocks: seq<Block>, n: nat)
    requires n <= |blocks|
  {
    var st := Replay(blocks, n).calls;
    && Dense(st, Tools(blocks, n))
    && forall i :: 0 <= i < n && blocks[i].kind.ToolUse? ==>
        && Tools(blocks, i) < Tools(blocks, n)
        && st.cells[Tools(blocks, i)] == ToolCall(blocks[i].id, blocks[i].name, blocks[i].body)
  }

  lemma {:induction false} ReplayCalls(blocks: seq<Block>, n: nat)
    requires n <= |blocks| && Tools(blocks, |blocks|) <= MAX_TOOL_CALLS_PER_ROUND
    requires forall i :: 0 <= i < |blocks| && blocks[i].kind.ToolUse? ==> |blocks[i].body| <= MAX_TOOL_CALL_ARGUMENTS
    ensures ReplaysCalls(blocks, n)
    decreases n
  {
    if n == 0 {
      ReplaysNothing(blocks);
    } else {
      ReplayCalls(blocks, n - 1);
      ReplayStep(blocks, n - 1);
    }
  }

  lemma {:induction false} ReplaysNothing(blocks: seq<Block>)
    ensures ReplaysCalls(blocks, 0)
  {}

  lemma {:induction false} ReplayStep(blocks: seq<Block>, n: nat)
    requires n < |blocks| && Tools(blocks, |blocks|) <= MAX_TOOL_CALLS_PER_ROUND && ReplaysCalls(blocks, n)
    requires blocks[n].kind.ToolUse? ==> |blocks[n].body| <= MAX_TOOL_CALL_ARGUMENTS
    ensures ReplaysCalls(blocks, n + 1)
  {
    if blocks[n].kind.ToolUse? {
      ToolsGrow(blocks, n + 1, |blocks|);
      ReplayOpensCall(blocks, n);
    } else {
      ReplayKeepsCalls(blocks, n);
    }
  }

  lemma {:induction false} ReplayOpensCall(blocks: seq<Block>, n: nat)
    requires n < |blocks| && blocks[n].kind.ToolUse? && |blocks[n].body| <= MAX_TOOL_CALL_ARGUMENTS
    requires Tools(blocks, n) < MAX_TOOL_CALLS_PER_ROUND && ReplaysCalls(blocks, n)
    ensures ReplaysCalls(blocks, n + 1)
  {
    var b, k, st := blocks[n], Tools(blocks, n), Replay(blocks, n).calls;
    DenseOpen(st, k, ToolCallDelta(At(k), b.id, b.name, b.body));
    assert Replay(blocks, n + 1).calls == Step(st, ToolCallDelta(At(k), b.id, b.name, b.body));
  }

  lemma {:induction false} ReplayKeepsCalls(blocks: seq<Block>, n: nat)
    requires n < |blocks| && !blocks[n].kind.ToolUse? && ReplaysCalls(blocks, n)
    ensures ReplaysCalls(blocks, n + 1)
  {
    assert Replay(blocks, n + 1).calls == Replay(blocks, n).calls;
  }

  lemma {:induction false} SameDrain(keys: seq<Index>, s: Table, t: Table, seen: set<string>)
    requires Linked(s) && Linked(t) && s.slots == t.slots && |s.cells| == |t.cells|
    requires forall k :: k in keys ==> k in s.slots
    requires forall c :: 0 <= c < |s.cells| ==>
      s.cells[c].id == t.cells[c].id && Normalized(s.cells[c]) == Normalized(t.cells[c])
    ensures DrainIn(keys, s, seen) == DrainIn(keys, t, seen)
    decreases |keys|
  {
    if keys != [] {
      SameDrain(keys[1..], s, t, seen);
      SameDrain(keys[1..], s, t, seen + {s.cells[s.slots[keys[0]]].id});
    }
  }

  lemma {:induction false} SameCalls(blocks: seq<Block>, events: seq<Event>)
    requires Chunks(blocks, events)
    ensures Drained(Stream(events, |events|).turn.calls) == Drained(Replay(blocks, |blocks|).calls)
  {
    StreamCalls(blocks, events, |events|);
    ReplayCalls(blocks, |blocks|);
    var s, t := Stream(events, |events|).turn.calls, Replay(blocks, |blocks|).calls;
    var k := Tools(blocks, |blocks|);
    SameDense(s, t, k);
    forall c | 0 <= c < k ensures s.cells[c].id == t.cells[c].id && Normalized(s.cells[c]) == Normalized(t.cells[c]) {
      var i := ToolAt(blocks, |blocks|, c);
    }
    var keys := SortedKeys(s.slots.Keys);
    assert forall x :: x in keys ==> x in Elems(keys);
    SameDrain(keys, s, t, {});
  }

  lemma {:induction false} SameDense(s: Table, t: Table, k: nat)
    requires Dense(s, k) && Dense(t, k)
    ensures s.slots == t.slots
  {
    forall x ensures x in s.slots <==> x in t.slots { assert x == At(x.n); }
    forall x | x in s.slots ensures s.slots[x] == t.slots[x] { assert x == At(x.n); }
  }

  // ----- text and thinking -----

  /** What has been sent for the blocks of a kind among the first `m`, joined in block order. */
  function Joined(blocks: seq<Block>, events: seq<Event>, n: nat, kind: Kind, m: nat): string
    requires n <= |events| && m <= |blocks|
  {
    if m == 0 then ""
    else Joined(blocks, events, n, kind, m - 1) + if blocks[m - 1].kind == kind then Sent(events, n, m - 1) else ""
  }

  /** A fragment for the latest block written so far lands at the end of the join. */
  lemma {:induction false} JoinedNext(blocks: seq<Block>, events: seq<Event>, n: nat, kind: Kind, m: nat)
    requires n < |events| && m <= |blocks| && Follows(blocks, events, n) && (kind.Text? || kind.Thinking?)
    ensures var e := events[n];
      Joined(blocks, events, n + 1, kind, m) ==
        Joined(blocks, events, n, kind, m) + if e.Fragment? && e.kind == kind && e.index < m then e.payload else ""
    decreases m
  {
    if m > 0 { JoinedNext(blocks, events, n, kind, m - 1); }
  }

  function Channel(turn: Assembly, kind: Kind): string {
    if kind.Text? then turn.text else turn.reasoning
  }

  lemma {:induction false} StreamChannel(events: seq<Event>, n: nat, kind: Kind)
    requires n < |events| && Stream(events, n + 1).ok && Stream(events, n).ok && (kind.Text? || kind.Thinking?)
    ensures var e := events[n];
      Channel(Stream(events, n + 1).turn, kind)
        == Channel(Stream(events, n).turn, kind) + if e.Fragment? && e.kind == kind then e.payload else ""
  {
    var turn := Stream(events, n).turn;
    assert turn.text + "" == turn.text && turn.reasoning + "" == turn.reasoning;
  }

  lemma {:induction false} StreamJoins(blocks: seq<Block>, events: seq<Event>, n: nat, kind: Kind)
    requires Chunking(blocks, events, n) && WithinCaps(blocks, events) && (kind.Text? || kind.Thinking?)
    ensures Stream(events, n).ok && Channel(Stream(events, n).turn, kind) == Joined(blocks, events, n, kind, |blocks|)
    decreases n
  {
    if n == 0 {
      NothingJoined(blocks, events, kind, |blocks|);
    } else {
      StreamJoins(blocks, events, n - 1, kind);
      assert Follows(blocks, events, n - 1);
      JoinedNext(blocks, events, n - 1, kind, |blocks|);
      assert Stream(events, n).ok by { StreamCalls(blocks, events, n); }
      StreamChannel(events, n - 1, kind);
    }
  }

  lemma {:induction false} NothingJoined(blocks: seq<Block>, events: seq<Event>, kind: Kind, m: nat)
    requires m <= |blocks|
    ensures Joined(blocks, events, 0, kind, m) == ""
    decreases m
  {
    if m > 0 { NothingJoined(blocks, events, kind, m - 1); }
  }

  lemma {:induction false} ReplayChannel(blocks: seq<Block>, m: nat, kind: Kind)
    requires m < |blocks| && (kind.Text? || kind.Thinking?)
    ensures Channel(Replay(blocks, m + 1), kind)
      == Channel(Replay(blocks, m), kind) + if blocks[m].kind == kind then blocks[m].body else ""
  {
    var turn := Replay(blocks, m);
    assert turn.text + "" == turn.text && turn.reasoning + "" == turn.reasoning;
  }

  lemma {:induction false} ReplayJoins(blocks: seq<Block>, events: seq<Event>, m: nat, kind: Kind)
    requires m <= |blocks| && (kind.Text? || kind.Thinking?)
    requires forall i :: 0 <= i < |blocks| && blocks[i].kind == kind ==> Sent(events, |events|, i) == blocks[i].body
    ensures Channel(Replay(blocks, m), kind) == Joined(blocks, events, |events|, kind, m)
    decreases m
  {
    if m > 0 {
      ReplayJoins(blocks, events, m - 1, kind);
      ReplayChannel(blocks, m - 1, kind);
    }
  }

  /** Any chunking yields the text, the reasoning and the drained calls of the non-streaming replay. */
  lemma {:induction false} StreamingMatchesReplay(blocks: seq<Block>, events: seq<Event>)
    requires Chunks(blocks, events)
    ensures var s, t := Stream(events, |events|), Replay(blocks, |blocks|);
      && s.ok
      && s.turn.text == t.text && s.turn.reasoning == t.reasoning
      && Drained(s.turn.calls) == Drained(t.calls)
  {
    StreamCalls(blocks, events, |events|);
    SameCalls(blocks, events);
    StreamJoins(blocks, events, |events|, Text);
    StreamJoins(blocks, events, |events|, Thinking);
    ReplayJoins(blocks, events, |blocks|, Text);
    ReplayJoins(blocks, events, |blocks|, Thinking);
  }
}
